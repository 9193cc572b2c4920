/** The per-cookie session bag and the three extension methods that keep the
    signed-in user in it (backend-dotnet/Extensions/SessionExtensions.cs). */
module SessionExtensions {
  import opened Common
  import opened Models
  import opened Codec

  /** The one entry of the bag that holds the user. */
  const UserKey: string := "session-user"

  /** What the bag holds under UserKey, decoded: no entry means no user, and a text
      the deserializer cannot read raises (GetUser does not catch it). */
  function StoredUser(entries: map<string, string>): (r: Decoded)
    ensures UserKey !in entries ==> r == Decoded(None)
    ensures r == Decoded(None) ==> UserKey !in entries || entries[UserKey] == NullLiteral
    ensures forall u :: r == Decoded(Some(u)) ==> UserKey in entries && entries[UserKey] == Encode(u)
  {
    if UserKey !in entries then Decoded(None)
    else
      var d := Decode(entries[UserKey]);
      if d.Decoded? && d.user.Some? then EncodeDecode(entries[UserKey]); d else d
  }

  /** The session string store of one request (`ISession`'s string view). */
  class Session {
    var entries: map<string, string>

    constructor (initial: map<string, string>)
      ensures entries == initial
    {
      entries := initial;
    }

    /** `SetUser`: writes the encoded user under UserKey and nothing else. */
    method SetUser(user: SessionUser)
      modifies this
      ensures entries == old(entries)[UserKey := Encode(user)]
      ensures forall k :: k != UserKey ==> (k in entries <==> k in old(entries))
      ensures forall k :: k != UserKey && k in entries ==> entries[k] == old(entries)[k]
    {
      var json := Encode(user);
      entries := entries[UserKey := json];
    }

    /** `GetUser`: reads UserKey and decodes it; changes nothing. */
    method GetUser() returns (r: Decoded)
      ensures r == StoredUser(entries)
    {
      if UserKey !in entries {
        r := Decoded(None);
      } else {
        var json := entries[UserKey];
        r := Decode(json);
      }
    }

    /** `ClearUser`: removes UserKey and nothing else. */
    method ClearUser()
      modifies this
      ensures entries == old(entries) - {UserKey}
      ensures forall k :: k != UserKey ==> (k in entries <==> k in old(entries))
      ensures forall k :: k != UserKey && k in entries ==> entries[k] == old(entries)[k]
    {
      entries := entries - {UserKey};
    }
  }

  // ----- properties of the bag -----

  /** After SetUser(u), GetUser returns u. */
  lemma GetAfterSet(entries: map<string, string>, u: SessionUser)
    ensures StoredUser(entries[UserKey := Encode(u)]) == Decoded(Some(u))
  {
    DecodeEncode(u);
  }

  /** After a second SetUser(v), GetUser returns v: the last write wins. */
  lemma GetAfterOverwrite(entries: map<string, string>, u: SessionUser, v: SessionUser)
    ensures entries[UserKey := Encode(u)][UserKey := Encode(v)] == entries[UserKey := Encode(v)]
    ensures StoredUser(entries[UserKey := Encode(u)][UserKey := Encode(v)]) == Decoded(Some(v))
  {
    var once := entries[UserKey := Encode(u)];
    var twice := once[UserKey := Encode(v)];
    assert twice == entries[UserKey := Encode(v)] by {
      assert twice.Keys == entries[UserKey := Encode(v)].Keys;
    }
    GetAfterSet(entries, v);
  }

  /** After ClearUser, GetUser returns no user, and clearing again changes nothing. */
  lemma GetAfterClear(entries: map<string, string>)
    ensures StoredUser(entries - {UserKey}) == Decoded(None)
    ensures (entries - {UserKey}) - {UserKey} == entries - {UserKey}
  {
  }

  /** GetUser reports a user exactly when the entry is some record's encoding. */
  lemma StoredUserIffEncoded(entries: map<string, string>, u: SessionUser)
    ensures StoredUser(entries) == Decoded(Some(u)) <==> UserKey in entries && entries[UserKey] == Encode(u)
  {
    if UserKey in entries && entries[UserKey] == Encode(u) {
      DecodeEncode(u);
    }
  }
}
