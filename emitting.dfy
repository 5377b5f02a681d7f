/**
 * The two shapes the detectors share: selecting the table entries whose key
 * matches a rule, and the `if (seen.Add(name)) results.Add(tech)` guard that
 * lets each technology name through at most once.
 */
module Emitting {
  import opened Text
  import opened TechModel

  /** How a parser decides that a table key is present in its input. */
  datatype KeyRule =
    | ContainedIn(text: string)   // the key occurs in the text, ignoring case
    | PrefixOf(id: string)        // the key starts the package id, ignoring case
    | AssignedIn(toml: string)    // a line of the text assigns the key (`key =`), ignoring case
    | SuffixOfSome(paths: seq<string>)  // some path ends with the key, ignoring case

  /** A line of `toml` that starts, after white space, with `key` (ignoring case)
      followed by white space and `=`: the regex `(?m)^\s*key\s*=`. White space
      includes line breaks, as `\s` does. */
  predicate AssignsKey(toml: string, key: string) {
    exists q :: 0 <= q && q + |key| <= |toml| && KeyAssignmentAt(toml, key, q)
  }

  predicate KeyAssignmentAt(toml: string, key: string, q: int)
    requires 0 <= q && q + |key| <= |toml|
  {
    && (exists p :: 0 <= p <= q && (p == 0 || toml[p - 1] == '\n') && IsBlank(toml[p..q]))
    && Lower(toml[q..q + |key|]) == Lower(key)
    && (exists e :: q + |key| <= e < |toml| && IsBlank(toml[q + |key|..e]) && toml[e] == '=')
  }

  predicate KeyMatches(rule: KeyRule, key: string) {
    match rule
    case ContainedIn(text) => ContainsIgnoreCase(text, key)
    case PrefixOf(id) => StartsWithIgnoreCase(id, key)
    case AssignedIn(toml) => AssignsKey(toml, key)
    case SuffixOfSome(paths) => exists f :: f in paths && EndsWithIgnoreCase(f, key)
  }

  /** The technologies of the entries whose key matches, in table order. */
  function Matching(table: Table, rule: KeyRule): (r: seq<Tech>)
    ensures |r| <= |table|
    decreases |table|
  {
    if |table| == 0 then []
    else
      var last := table[|table| - 1];
      Matching(table[..|table| - 1], rule) + (if KeyMatches(rule, last.0) then [last.1] else [])
  }

  /** A technology is selected exactly when some entry with a matching key stands for it. */
  lemma {:induction false} MatchingSelects(table: Table, rule: KeyRule, t: Tech)
    ensures t in Matching(table, rule) <==> exists i :: 0 <= i < |table| && table[i].1 == t && KeyMatches(rule, table[i].0)
    decreases |table|
  {
    if |table| > 0 {
      var init := table[..|table| - 1];
      MatchingSelects(init, rule, t);
      if exists i :: 0 <= i < |init| && init[i].1 == t && KeyMatches(rule, init[i].0) {
        var i :| 0 <= i < |init| && init[i].1 == t && KeyMatches(rule, init[i].0);
        assert table[i] == init[i];
      }
      if exists i :: 0 <= i < |table| && table[i].1 == t && KeyMatches(rule, table[i].0) {
        var i :| 0 <= i < |table| && table[i].1 == t && KeyMatches(rule, table[i].0);
        if i < |init| {
          assert init[i] == table[i];
        }
      }
    }
  }

  /** The key a seen-set compares: the name, or its lower-cased form when the set ignores case. */
  function SeenKey(name: string, ignoreCase: bool): string {
    if ignoreCase then Lower(name) else name
  }

  /** A detector's output so far and the keys of the names it has emitted. */
  datatype Emitted = Emitted(results: seq<Tech>, seen: set<string>)

  const NothingEmitted := Emitted([], {})

  /** `if (seen.Add(t.Name)) results.Add(t)`. */
  function Emit(acc: Emitted, t: Tech, ignoreCase: bool): Emitted {
    var k := SeenKey(t.name, ignoreCase);
    if k in acc.seen then acc else Emitted(acc.results + [t], acc.seen + {k})
  }

  /** Offers each technology of `ts` in turn. */
  function EmitAll(acc: Emitted, ts: seq<Tech>, ignoreCase: bool): Emitted
    decreases |ts|
  {
    if |ts| == 0 then acc else Emit(EmitAll(acc, ts[..|ts| - 1], ignoreCase), ts[|ts| - 1], ignoreCase)
  }

  /** The technologies of `ts`, each name let through once, starting from an empty seen-set. */
  function Distinct(ts: seq<Tech>, ignoreCase: bool): seq<Tech> {
    EmitAll(NothingEmitted, ts, ignoreCase).results
  }

  lemma {:induction false} EmitAllAppend(acc: Emitted, a: seq<Tech>, b: seq<Tech>, ignoreCase: bool)
    ensures EmitAll(acc, a + b, ignoreCase) == EmitAll(EmitAll(acc, a, ignoreCase), b, ignoreCase)
    decreases |b|
  {
    if |b| > 0 {
      assert (a + b)[..|a + b| - 1] == a + b[..|b| - 1];
      EmitAllAppend(acc, a, b[..|b| - 1], ignoreCase);
    } else {
      assert a + b == a;
    }
  }

  lemma EmitAllSnoc(acc: Emitted, ts: seq<Tech>, t: Tech, ignoreCase: bool)
    ensures EmitAll(acc, ts + [t], ignoreCase) == Emit(EmitAll(acc, ts, ignoreCase), t, ignoreCase)
  {
    assert (ts + [t])[..|ts|] == ts;
  }

  /** The seen-set holds exactly the keys of the emitted names, and no key is emitted twice. */
  ghost predicate Tracks(acc: Emitted, ignoreCase: bool) {
    && (forall i, j :: 0 <= i < j < |acc.results| ==>
          SeenKey(acc.results[i].name, ignoreCase) != SeenKey(acc.results[j].name, ignoreCase))
    && SeenExact(acc, ignoreCase)
  }

  /** The seen-set holds exactly the keys of the emitted names. */
  ghost predicate SeenExact(acc: Emitted, ignoreCase: bool) {
    forall k :: k in acc.seen <==> exists i :: 0 <= i < |acc.results| && SeenKey(acc.results[i].name, ignoreCase) == k
  }

  /** The keys of the names of `ts`. */
  function SeenKeys(ts: seq<Tech>, ignoreCase: bool): (r: set<string>)
    ensures SeenExact(Emitted(ts, r), ignoreCase)
  {
    set i | 0 <= i < |ts| :: SeenKey(ts[i].name, ignoreCase)
  }

  lemma EmitTracks(acc: Emitted, t: Tech, ignoreCase: bool)
    requires Tracks(acc, ignoreCase)
    ensures Tracks(Emit(acc, t, ignoreCase), ignoreCase)
  {
    var k := SeenKey(t.name, ignoreCase);
    if k !in acc.seen {
      var r := Emit(acc, t, ignoreCase);
      assert r.results[|acc.results|] == t;
      forall k' | k' in r.seen ensures exists i :: 0 <= i < |r.results| && SeenKey(r.results[i].name, ignoreCase) == k' {
        if k' in acc.seen {
          var i :| 0 <= i < |acc.results| && SeenKey(acc.results[i].name, ignoreCase) == k';
          assert r.results[i] == acc.results[i];
        }
      }
    }
  }

  /** Offering technologies keeps each emitted name unique and the seen-set exact. */
  lemma {:induction false} EmitAllTracks(acc: Emitted, ts: seq<Tech>, ignoreCase: bool)
    requires Tracks(acc, ignoreCase)
    ensures Tracks(EmitAll(acc, ts, ignoreCase), ignoreCase)
    decreases |ts|
  {
    if |ts| > 0 {
      EmitAllTracks(acc, ts[..|ts| - 1], ignoreCase);
      EmitTracks(EmitAll(acc, ts[..|ts| - 1], ignoreCase), ts[|ts| - 1], ignoreCase);
    }
  }

  /** Offering technologies keeps what was emitted, appends only offered technologies,
      and marks the name of every offered technology as seen. */
  lemma {:induction false} EmitAllExtends(acc: Emitted, ts: seq<Tech>, ignoreCase: bool)
    ensures acc.results <= EmitAll(acc, ts, ignoreCase).results
    ensures acc.seen <= EmitAll(acc, ts, ignoreCase).seen
    ensures forall i :: |acc.results| <= i < |EmitAll(acc, ts, ignoreCase).results| ==>
      EmitAll(acc, ts, ignoreCase).results[i] in ts
    ensures forall t :: t in ts ==> SeenKey(t.name, ignoreCase) in EmitAll(acc, ts, ignoreCase).seen
    decreases |ts|
  {
    if |ts| > 0 {
      var init := ts[..|ts| - 1];
      EmitAllExtends(acc, init, ignoreCase);
      var mid := EmitAll(acc, init, ignoreCase);
      var r := EmitAll(acc, ts, ignoreCase);
      forall i | |acc.results| <= i < |r.results| ensures r.results[i] in ts {
        if i < |mid.results| {
          assert r.results[i] == mid.results[i];
          assert mid.results[i] in init;
        } else {
          assert r.results[i] == ts[|ts| - 1];
        }
      }
      forall t | t in ts ensures SeenKey(t.name, ignoreCase) in r.seen {
        if t != ts[|ts| - 1] {
          var j :| 0 <= j < |ts| && ts[j] == t;
          assert init[j] == t;
        }
      }
    }
  }

  /** `Distinct` lets every offered name through exactly once: its names are unique,
      each of its technologies was offered, and each offered name is among its names. */
  lemma DistinctSpec(ts: seq<Tech>, ignoreCase: bool)
    ensures forall i, j :: 0 <= i < j < |Distinct(ts, ignoreCase)| ==>
      SeenKey(Distinct(ts, ignoreCase)[i].name, ignoreCase) != SeenKey(Distinct(ts, ignoreCase)[j].name, ignoreCase)
    ensures forall t :: t in Distinct(ts, ignoreCase) ==> t in ts
    ensures forall t :: t in ts ==> exists u :: u in Distinct(ts, ignoreCase) && SeenKey(u.name, ignoreCase) == SeenKey(t.name, ignoreCase)
  {
    EmitAllTracks(NothingEmitted, ts, ignoreCase);
    DistinctFromInput(ts, ignoreCase);
    DistinctCovers(ts, ignoreCase);
  }

  lemma DistinctFromInput(ts: seq<Tech>, ignoreCase: bool)
    ensures forall t :: t in Distinct(ts, ignoreCase) ==> t in ts
  {
    EmitAllExtends(NothingEmitted, ts, ignoreCase);
    var r := EmitAll(NothingEmitted, ts, ignoreCase);
    forall t | t in r.results ensures t in ts {
      var i :| 0 <= i < |r.results| && r.results[i] == t;
    }
  }

  lemma DistinctCovers(ts: seq<Tech>, ignoreCase: bool)
    ensures forall t :: t in ts ==> exists u :: u in Distinct(ts, ignoreCase) && SeenKey(u.name, ignoreCase) == SeenKey(t.name, ignoreCase)
  {
    EmitAllTracks(NothingEmitted, ts, ignoreCase);
    EmitAllExtends(NothingEmitted, ts, ignoreCase);
    var r := EmitAll(NothingEmitted, ts, ignoreCase);
    assert SeenExact(r, ignoreCase);
    forall t | t in ts ensures exists u :: u in r.results && SeenKey(u.name, ignoreCase) == SeenKey(t.name, ignoreCase) {
      assert SeenKey(t.name, ignoreCase) in r.seen;
      var i :| 0 <= i < |r.results| && SeenKey(r.results[i].name, ignoreCase) == SeenKey(t.name, ignoreCase);
      assert r.results[i] in r.results;
    }
  }

  /** Starting from output whose seen-set is exact (possibly with repeated names),
      offering technologies keeps that output as a prefix, keeps the seen-set exact, and
      appends only technologies whose key differs from that of every earlier entry. */
  lemma {:induction false} EmitAllFresh(acc: Emitted, ts: seq<Tech>, ignoreCase: bool)
    requires SeenExact(acc, ignoreCase)
    ensures SeenExact(EmitAll(acc, ts, ignoreCase), ignoreCase)
    ensures acc.results <= EmitAll(acc, ts, ignoreCase).results
    ensures var r := EmitAll(acc, ts, ignoreCase).results;
      forall i, j :: 0 <= j < i < |r| && |acc.results| <= i ==> SeenKey(r[j].name, ignoreCase) != SeenKey(r[i].name, ignoreCase)
    decreases |ts|
  {
    if |ts| > 0 {
      var mid := EmitAll(acc, ts[..|ts| - 1], ignoreCase);
      EmitAllFresh(acc, ts[..|ts| - 1], ignoreCase);
      var t := ts[|ts| - 1];
      var k := SeenKey(t.name, ignoreCase);
      if k !in mid.seen {
        var r := Emit(mid, t, ignoreCase);
        assert r.results[|mid.results|] == t;
        forall j | 0 <= j < |mid.results| ensures SeenKey(r.results[j].name, ignoreCase) != k {
          assert r.results[j] == mid.results[j];
        }
        forall k' | k' in r.seen ensures exists i :: 0 <= i < |r.results| && SeenKey(r.results[i].name, ignoreCase) == k' {
          if k' in mid.seen {
            var i :| 0 <= i < |mid.results| && SeenKey(mid.results[i].name, ignoreCase) == k';
            assert r.results[i] == mid.results[i];
          }
        }
      }
    }
  }

  /** Each technology `Distinct` keeps is the first one offered with its key. */
  lemma {:induction false} DistinctKeepsFirst(ts: seq<Tech>, ignoreCase: bool, u: Tech)
    requires u in Distinct(ts, ignoreCase)
    ensures exists i :: (0 <= i < |ts| && ts[i] == u
      && forall j :: 0 <= j < i ==> SeenKey(ts[j].name, ignoreCase) != SeenKey(u.name, ignoreCase))
    decreases |ts|
  {
    var init := ts[..|ts| - 1];
    var mid := EmitAll(NothingEmitted, init, ignoreCase);
    if u in mid.results {
      DistinctKeepsFirst(init, ignoreCase, u);
      var i :| 0 <= i < |init| && init[i] == u
        && forall j :: 0 <= j < i ==> SeenKey(init[j].name, ignoreCase) != SeenKey(u.name, ignoreCase);
      assert ts[i] == u;
      forall j | 0 <= j < i ensures SeenKey(ts[j].name, ignoreCase) != SeenKey(u.name, ignoreCase) {
        assert ts[j] == init[j];
      }
    } else {
      EmitAllExtends(NothingEmitted, init, ignoreCase);
      var last := ts[|ts| - 1];
      assert u == last && SeenKey(last.name, ignoreCase) !in mid.seen;
      forall j | 0 <= j < |ts| - 1 ensures SeenKey(ts[j].name, ignoreCase) != SeenKey(u.name, ignoreCase) {
        assert ts[j] == init[j];
        assert init[j] in init;
      }
    }
  }
}
