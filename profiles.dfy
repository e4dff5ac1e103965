/** The saved hardware profiles: a most-recent-first list of at most twenty entries kept in local storage. */
module Profiles {
  import opened Wrappers

  /** One saved machine: its RAM and bandwidth, with an id, a display name, a note and a timestamp. */
  datatype Profile = Profile(
    id: string,
    name: string,
    ramGiB: real,
    bandwidthGBs: real,
    note: string,
    createdAt: string)

  /** Saving keeps only the twenty most recent profiles. */
  const MAX_PROFILES: nat := 20

  /** The note every newly saved profile carries. */
  const SAVED_NOTE: string := "Saved locally (localStorage)"

  /** `[p, ...profiles].slice(0, 20)`. */
  function Prepended(profiles: seq<Profile>, p: Profile): (r: seq<Profile>)
    ensures |r| == if |profiles| < MAX_PROFILES then |profiles| + 1 else MAX_PROFILES
    ensures r[0] == p
    ensures forall i :: 1 <= i < |r| ==> r[i] == profiles[i - 1]
  {
    var all := [p] + profiles;
    all[..if |all| <= MAX_PROFILES then |all| else MAX_PROFILES]
  }

  /** Below the cap nothing is dropped; at the cap the oldest entries fall off the end. */
  lemma PrependedDropsOldest(profiles: seq<Profile>, p: Profile)
    ensures |profiles| < MAX_PROFILES ==> Prepended(profiles, p) == [p] + profiles
    ensures |profiles| >= MAX_PROFILES ==> Prepended(profiles, p) == [p] + profiles[..MAX_PROFILES - 1]
  {
    var r := Prepended(profiles, p);
    if |profiles| < MAX_PROFILES {
      assert forall i :: 0 <= i < |r| ==> r[i] == ([p] + profiles)[i];
    } else {
      assert forall i :: 0 <= i < |r| ==> r[i] == ([p] + profiles[..MAX_PROFILES - 1])[i];
    }
  }

  /** `profiles.filter(p => p.id !== id)`. */
  function WithoutId(profiles: seq<Profile>, id: string): seq<Profile> {
    if profiles == [] then []
    else (if profiles[0].id != id then [profiles[0]] else []) + WithoutId(profiles[1..], id)
  }

  /** Exactly the profiles with another id remain. */
  lemma {:induction false} WithoutIdMembers(profiles: seq<Profile>, id: string)
    ensures forall q :: q in WithoutId(profiles, id) <==> q in profiles && q.id != id
  {
    if profiles != [] {
      WithoutIdMembers(profiles[1..], id);
      assert profiles == [profiles[0]] + profiles[1..];
    }
  }

  /** Each profile with another id remains as often as it was there; none with this id remain. */
  lemma {:induction false} WithoutIdCounts(profiles: seq<Profile>, id: string)
    ensures forall q :: multiset(WithoutId(profiles, id))[q] == if q.id == id then 0 else multiset(profiles)[q]
  {
    if profiles != [] {
      var rest := WithoutId(profiles[1..], id);
      WithoutIdCounts(profiles[1..], id);
      assert profiles == [profiles[0]] + profiles[1..];
      assert multiset(profiles) == multiset{profiles[0]} + multiset(profiles[1..]);
      if profiles[0].id != id {
        assert multiset(WithoutId(profiles, id)) == multiset{profiles[0]} + multiset(rest);
      } else {
        assert WithoutId(profiles, id) == rest;
      }
    }
  }

  /** Deleting never lengthens the list, and deleting an id nobody has changes nothing. */
  lemma {:induction false} WithoutIdNoMatch(profiles: seq<Profile>, id: string)
    ensures |WithoutId(profiles, id)| <= |profiles|
    ensures (forall q :: q in profiles ==> q.id != id) ==> WithoutId(profiles, id) == profiles
  {
    if profiles != [] {
      WithoutIdNoMatch(profiles[1..], id);
      assert profiles == [profiles[0]] + profiles[1..];
    }
  }

  /** Filtering distributes over concatenation, so the kept profiles stay in their original order. */
  lemma {:induction false} WithoutIdAppend(a: seq<Profile>, b: seq<Profile>, id: string)
    ensures WithoutId(a + b, id) == WithoutId(a, id) + WithoutId(b, id)
  {
    if a == [] {
      assert a + b == b;
    } else {
      var head := if a[0].id != id then [a[0]] else [];
      WithoutIdAppend(a[1..], b, id);
      assert (a + b)[0] == a[0] && (a + b)[1..] == a[1..] + b;
      assert WithoutId(a + b, id) == head + WithoutId(a[1..] + b, id);
      assert WithoutId(a, id) == head + WithoutId(a[1..], id);
      assert head + (WithoutId(a[1..], id) + WithoutId(b, id)) == (head + WithoutId(a[1..], id)) + WithoutId(b, id);
    }
  }

  /** Deleting the same id twice is the same as deleting it once. */
  lemma WithoutIdIdempotent(profiles: seq<Profile>, id: string)
    ensures WithoutId(WithoutId(profiles, id), id) == WithoutId(profiles, id)
  {
    WithoutIdMembers(profiles, id);
    WithoutIdNoMatch(WithoutId(profiles, id), id);
  }

  /** Deleting a profile that was just saved under a fresh id restores the list, as long as the save
      did not push an older entry off the end. */
  lemma DeleteUndoesSave(profiles: seq<Profile>, p: Profile)
    requires |profiles| < MAX_PROFILES
    requires forall q :: q in profiles ==> q.id != p.id
    ensures WithoutId(Prepended(profiles, p), p.id) == profiles
  {
    PrependedDropsOldest(profiles, p);
    assert ([p] + profiles)[1..] == profiles;
    WithoutIdNoMatch(profiles, p.id);
  }

  /** The profile list as the page holds it. */
  class ProfileList {
    var profiles: seq<Profile>

    /** Starts from whatever the storage layer loaded. */
    constructor (loaded: seq<Profile>)
      ensures profiles == loaded
    {
      profiles := loaded;
    }

    /** `saveCurrentProfile`: a cancelled or empty name saves nothing; otherwise the new profile goes
        first and the list is capped. The id and the timestamp are supplied by the caller. */
    method Save(id: string, name: Option<string>, ramGiB: real, bandwidthGBs: real, createdAt: string)
      modifies this
      ensures name.None? || name.value == "" ==> profiles == old(profiles)
      ensures name.Some? && name.value != "" ==>
        profiles == Prepended(old(profiles), Profile(id, name.value, ramGiB, bandwidthGBs, SAVED_NOTE, createdAt))
      ensures |profiles| <= MAX_PROFILES || profiles == old(profiles)
    {
      if name.None? || name.value == "" {
        return;
      }
      var p := Profile(id, name.value, ramGiB, bandwidthGBs, SAVED_NOTE, createdAt);
      profiles := Prepended(profiles, p);
    }

    /** `deleteProfile`: every entry with this id goes, the others stay in order. */
    method Delete(id: string)
      modifies this
      ensures profiles == WithoutId(old(profiles), id)
      ensures forall q :: q in profiles <==> q in old(profiles) && q.id != id
    {
      WithoutIdMembers(profiles, id);
      profiles := WithoutId(profiles, id);
    }
  }
}
