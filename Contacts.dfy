/** `getContactName` of the AI bot: a display name per chat JID, looked up
    once through the transport and then served from a process-wide cache. */
module Contacts {
  import opened Wrappers
  import opened JsStrings
  import opened Messages

  /** The reply of `sock.fetchContact`; "" stands for an absent field. */
  datatype Profile = Profile(name: string, notify: string)

  /** What the transport would answer for one JID if asked: the contact
      reply and the group subject, each `None` when that lookup throws. */
  datatype Directory = Directory(contact: Option<Profile>, subject: Option<string>)

  /** Which lookup a call performed. */
  datatype Fetch = NoFetch | FetchContact | FetchGroup

  const UnknownName := "Unknown"
  const UnknownGroup := "Unknown Group"

  /** A direct chat JID and a group JID cannot be the same string. */
  lemma SuffixesExclusive(jid: string)
    ensures !(EndsWith(jid, DirectSuffix) && IsGroupJid(jid))
  {
    if EndsWith(jid, DirectSuffix) {
      assert jid[|jid| - 2] == 'e';
    }
  }

  /** The lookup a cache miss performs for `jid`. */
  function FetchFor(jid: string): Fetch {
    if EndsWith(jid, DirectSuffix) then FetchContact
    else if IsGroupJid(jid) then FetchGroup
    else NoFetch
  }

  /** The name a cache miss settles on, decided by the JID's suffix; a
      failed lookup falls back instead of raising. */
  function ResolveName(jid: string, dir: Directory): (r: string)
    ensures r == "" ==> EndsWith(jid, DirectSuffix) && BeforeAt(jid) == ""
  {
    if EndsWith(jid, DirectSuffix) then
      var number := BeforeAt(jid);
      match dir.contact
      case Some(p) => if p.name != "" then p.name else if p.notify != "" then p.notify else number
      case None => number
    else if IsGroupJid(jid) then
      match dir.subject
      case Some(s) => if s != "" then s else UnknownGroup
      case None => UnknownGroup
    else UnknownName
  }

  /** The resolution rules, suffix by suffix: a direct JID gives the contact's
      name, else its notify name, else the number before `@` (also when the
      lookup fails); a group JID gives its subject, else "Unknown Group" (also
      when the lookup fails); any other JID gives "Unknown" without a lookup. */
  lemma ResolutionBySuffix(jid: string, dir: Directory)
    ensures EndsWith(jid, DirectSuffix) ==>
      ResolveName(jid, dir) ==
        if dir.contact.Some? && dir.contact.value.name != "" then dir.contact.value.name
        else if dir.contact.Some? && dir.contact.value.notify != "" then dir.contact.value.notify
        else BeforeAt(jid)
    ensures IsGroupJid(jid) ==>
      ResolveName(jid, dir) ==
        if dir.subject.Some? && dir.subject.value != "" then dir.subject.value else UnknownGroup
    ensures !EndsWith(jid, DirectSuffix) && !IsGroupJid(jid) ==> ResolveName(jid, dir) == UnknownName && FetchFor(jid) == NoFetch
  {
    SuffixesExclusive(jid);
  }

  /** The name of a direct chat depends only on the contact lookup, and that
      of any other chat only on the group lookup. */
  lemma ResolutionUsesOneLookup(jid: string, c1: Option<Profile>, c2: Option<Profile>, s1: Option<string>, s2: Option<string>)
    ensures EndsWith(jid, DirectSuffix) ==> ResolveName(jid, Directory(c1, s1)) == ResolveName(jid, Directory(c1, s2))
    ensures !EndsWith(jid, DirectSuffix) ==> ResolveName(jid, Directory(c1, s1)) == ResolveName(jid, Directory(c2, s1))
  {
  }

  /** The cache after resolving `jid`: unchanged on a hit, extended by the
      resolved name on a miss. */
  function Remember(cache: map<string, string>, jid: string, dir: Directory): (r: map<string, string>)
    ensures jid in r && r.Keys == cache.Keys + {jid}
    ensures jid in cache ==> r == cache
    ensures jid !in cache ==> r[jid] == ResolveName(jid, dir)
    ensures forall k :: k in cache ==> r[k] == cache[k]
  {
    if jid in cache then cache else cache[jid := ResolveName(jid, dir)]
  }

  /** Remembering a JID twice is remembering it once: the second call hits
      the cache whatever the transport would now answer. */
  lemma RememberIdempotent(cache: map<string, string>, jid: string, d1: Directory, d2: Directory)
    ensures Remember(Remember(cache, jid, d1), jid, d2) == Remember(cache, jid, d1)
  {
  }

  /** The memo of `getContactName`: JID to display name, filled lazily and
      never invalidated. */
  class ContactResolver {
    var cache: map<string, string>

    constructor ()
      ensures cache == map[]
    {
      cache := map[];
    }

    /** `getContactName(sock, jid)`: a hit returns the cached name without a
        lookup; a miss performs at most one lookup, chosen by suffix, and
        records its outcome. Either way the cache then maps `jid` to the
        returned name. */
    method Resolve(jid: string, dir: Directory) returns (name: string, fetch: Fetch)
      modifies this
      ensures cache == Remember(old(cache), jid, dir) && jid in cache && cache[jid] == name
      ensures jid in old(cache) ==> name == old(cache)[jid] && fetch == NoFetch
      ensures jid !in old(cache) ==> fetch == FetchFor(jid)
    {
      if jid in cache {
        return cache[jid], NoFetch;
      }
      name := UnknownName;
      fetch := NoFetch;
      if EndsWith(jid, DirectSuffix) {
        var number := BeforeAt(jid);
        fetch := FetchContact;
        match dir.contact {
          case Some(p) =>
            name := if p.name != "" then p.name else if p.notify != "" then p.notify else number;
          case None =>
            name := number;
        }
      } else if IsGroupJid(jid) {
        fetch := FetchGroup;
        match dir.subject {
          case Some(s) =>
            name := if s != "" then s else UnknownGroup;
          case None =>
            name := UnknownGroup;
        }
      }
      cache := cache[jid := name];
    }
  }

  /** Two calls for the same JID return the identical name, and the second
      one performs no lookup, whatever the transport would answer then. */
  method ResolveTwice(r: ContactResolver, jid: string, d1: Directory, d2: Directory)
    returns (first: string, second: string, secondFetch: Fetch)
    modifies r
    ensures first == second && secondFetch == NoFetch
    ensures r.cache == Remember(old(r.cache), jid, d1)
  {
    var f;
    first, f := r.Resolve(jid, d1);
    second, secondFetch := r.Resolve(jid, d2);
  }
}
