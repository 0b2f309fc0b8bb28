/**
 * The auto-save version log of the DOM script: a newest-first list of at
 * most ten versions, kept in storage under one key. The field `stored`
 * stands for that storage entry.
 */
module VersionLog {

  const MaxVersions: nat := 10

  /** One saved version: generateId(), the time of day, a description and the serialized board. */
  datatype Version = Version(id: string, timestamp: string, description: string, data: string)

  /** `s.slice(0, 10)` / `s.splice(10)`: the first ten entries. */
  function FirstTen(s: seq<Version>): (r: seq<Version>)
    ensures |r| <= MaxVersions && r <= s
    ensures |s| <= MaxVersions ==> r == s
    ensures |s| > MaxVersions ==> |r| == MaxVersions
  {
    if |s| <= MaxVersions then s else s[..MaxVersions]
  }

  /** The log after one version is added to `log`: newest first, at most ten. */
  function Added(log: seq<Version>, v: Version): (r: seq<Version>)
    ensures 0 < |r| <= MaxVersions && r[0] == v
    ensures forall i :: 1 <= i < |r| ==> i - 1 < |log| && r[i] == log[i - 1]
    ensures |r| == if |log| < MaxVersions then |log| + 1 else MaxVersions
  {
    FirstTen([v] + FirstTen(log))
  }

  function Reverse(s: seq<Version>): (r: seq<Version>)
    ensures |r| == |s|
    decreases s
  {
    if s == [] then [] else Reverse(s[1..]) + [s[0]]
  }

  /** The log after `vs` are added to `log` one after another. */
  function AddedAll(log: seq<Version>, vs: seq<Version>): seq<Version>
    decreases vs
  {
    if vs == [] then log else AddedAll(Added(log, vs[0]), vs[1..])
  }

  /** Starting from an empty log, the log holds the ten latest versions, newest first. */
  lemma {:induction false} AddedAllNewestFirst(log: seq<Version>, vs: seq<Version>)
    requires |log| <= MaxVersions
    ensures AddedAll(log, vs) == FirstTen(Reverse(vs) + log)
    decreases vs
  {
    if vs != [] {
      var v, older := vs[0], Reverse(vs[1..]);
      var next := Added(log, v);
      assert AddedAll(log, vs) == AddedAll(next, vs[1..]);
      AddedAllNewestFirst(next, vs[1..]);
      FirstTenAbsorbs(older, [v] + log);
      assert Reverse(vs) == older + [v];
      assert older + ([v] + log) == (older + [v]) + log;
    }
  }

  /** Cutting to ten before more entries go in front changes nothing once the result is cut to ten. */
  lemma FirstTenAbsorbs(newer: seq<Version>, s: seq<Version>)
    ensures FirstTen(newer + FirstTen(s)) == FirstTen(newer + s)
  {
    if |s| > MaxVersions {
      var a, b := newer + s[..MaxVersions], newer + s;
      forall i | 0 <= i < MaxVersions
        ensures a[i] == b[i]
      {
        if i >= |newer| { assert a[i] == s[i - |newer|]; }
      }
      assert a[..MaxVersions] == b[..MaxVersions];
    }
  }

  class VersionStore {
    /** The stored list, as whatever last wrote it left it. */
    var stored: seq<Version>

    constructor()
      ensures stored == []
    {
      stored := [];
    }

    /** getVersionHistory: the first ten stored versions. */
    function GetVersionHistory(): (r: seq<Version>)
      reads this
      ensures |r| <= MaxVersions && r <= stored
      ensures |stored| <= MaxVersions ==> r == stored
      ensures |stored| > MaxVersions ==> |r| == MaxVersions
    {
      FirstTen(stored)
    }

    /** addToVersionHistory: `v` goes in front, the list is cut to ten and stored. */
    method AddToVersionHistory(v: Version)
      modifies this
      ensures stored == Added(old(GetVersionHistory()), v)
      ensures stored[0] == v && |stored| <= MaxVersions
    {
      var versions := GetVersionHistory();
      versions := [v] + versions;
      if |versions| > MaxVersions {
        versions := versions[..MaxVersions];
      }
      stored := versions;
    }
  }
}
