/** The leaderboard: `getPlayerRanks` (server.js:83-91). `Object.values` lists the
    records in insertion order, `Array.prototype.sort` with the comparator
    `b.score - a.score` sorts them stably by descending score, and `map`
    projects each record to `{id, score, color}`. */
module Ranking {
  import opened Protocol

  predicate NoDuplicates(s: seq<string>)
  {
    forall i, j | 0 <= i < j < |s| :: s[i] != s[j]
  }

  /** `order` lists every key of `players` exactly once, in insertion order. */
  predicate OrderMatches(players: map<string, Rec>, order: seq<string>)
  {
    && NoDuplicates(order)
    && (forall i | 0 <= i < |order| :: order[i] in players)
    && (forall k | k in players :: k in order)
  }

  /** `Object.values(players)`: the records in the order their keys were inserted. */
  function Values(players: map<string, Rec>, order: seq<string>): (vs: seq<Rec>)
    requires forall i | 0 <= i < |order| :: order[i] in players
    ensures |vs| == |order|
    ensures forall i | 0 <= i < |order| :: vs[i] == players[order[i]]
  {
    if order == [] then [] else [players[order[0]]] + Values(players, order[1..])
  }

  predicate SortedByScore(s: seq<Rec>)
  {
    forall i, j | 0 <= i < j < |s| :: s[i].score >= s[j].score
  }

  /** Puts `r` in front of the first element of `s` whose score is not higher,
      so that `r` stays ahead of the elements of `s` that tie with it. */
  function Insert(r: Rec, s: seq<Rec>): (t: seq<Rec>)
    ensures multiset(t) == multiset(s) + multiset{r}
  {
    if s == [] || r.score >= s[0].score then [r] + s
    else
      assert s == [s[0]] + s[1..];
      [s[0]] + Insert(r, s[1..])
  }

  lemma {:induction false} InsertSorted(r: Rec, s: seq<Rec>)
    requires SortedByScore(s)
    ensures SortedByScore(Insert(r, s))
  {
    if s != [] && r.score < s[0].score {
      var rest := Insert(r, s[1..]);
      InsertSorted(r, s[1..]);
      forall j | 0 <= j < |rest|
        ensures s[0].score >= rest[j].score
      {
        assert rest[j] in multiset(rest);
        if rest[j] != r {
          assert rest[j] in multiset(s[1..]);
          var i :| 0 <= i < |s[1..]| && s[1..][i] == rest[j];
          assert s[i + 1] == rest[j];
        }
      }
      var t := [s[0]] + rest;
      assert forall j | 1 <= j < |t| :: t[j] == rest[j - 1];
    }
  }

  /** The stable sort by non-increasing score that the server's comparator gives. */
  function SortByScore(s: seq<Rec>): (t: seq<Rec>)
    ensures multiset(t) == multiset(s)
    ensures SortedByScore(t)
  {
    if s == [] then []
    else
      assert s == [s[0]] + s[1..];
      InsertSorted(s[0], SortByScore(s[1..]));
      Insert(s[0], SortByScore(s[1..]))
  }

  function RankOf(r: Rec): (e: RankEntry)
    ensures e.id == r.id && e.score == r.score && e.color == r.color
  {
    RankEntry(r.id, r.score, r.color)
  }

  /** The `map` step of `getPlayerRanks`. */
  function Project(s: seq<Rec>): (t: seq<RankEntry>)
    ensures |t| == |s|
    ensures forall i | 0 <= i < |s| :: t[i] == RankOf(s[i])
  {
    if s == [] then [] else [RankOf(s[0])] + Project(s[1..])
  }

  /** `getPlayerRanks()` over the server's `players` dictionary. */
  function PlayerRanks(players: map<string, Rec>, order: seq<string>): (ranks: seq<RankEntry>)
    requires OrderMatches(players, order)
    ensures |ranks| == |players|
    ensures forall i, j | 0 <= i < j < |ranks| :: ranks[i].score >= ranks[j].score
    ensures multiset(ranks) == multiset(Project(Values(players, order)))
    ensures forall k | k in players :: RankOf(players[k]) in ranks
  {
    var vs := Values(players, order);
    var sorted := SortByScore(vs);
    DistinctKeysCount(players, order);
    ProjectSort(vs);
    assert forall k | k in players :: RankOf(players[k]) in multiset(Project(vs)) by {
      forall k | k in players ensures RankOf(players[k]) in multiset(Project(vs)) {
        var i :| 0 <= i < |order| && order[i] == k;
        assert Project(vs)[i] == RankOf(players[k]);
      }
    }
    Project(sorted)
  }

  /** A key list without repetitions has as many entries as the dictionary has keys. */
  lemma {:induction false} DistinctKeysCount(players: map<string, Rec>, order: seq<string>)
    requires OrderMatches(players, order)
    ensures |order| == |players|
  {
    DistinctElems(order);
    assert (set x | x in order) == players.Keys;
  }

  lemma {:induction false} DistinctElems(s: seq<string>)
    requires NoDuplicates(s)
    ensures |set x | x in s| == |s|
  {
    if s != [] {
      DistinctElems(s[1..]);
      assert (set x | x in s) == (set x | x in s[1..]) + {s[0]};
      assert s[0] !in (set x | x in s[1..]);
    }
  }

  lemma {:induction false} ProjectInsert(r: Rec, s: seq<Rec>)
    ensures multiset(Project(Insert(r, s))) == multiset(Project(s)) + multiset{RankOf(r)}
  {
    if s == [] || r.score >= s[0].score {
      assert ([r] + s)[1..] == s;
    } else {
      var rest := Insert(r, s[1..]);
      ProjectInsert(r, s[1..]);
      assert ([s[0]] + rest)[1..] == rest;
      assert Project(s) == [RankOf(s[0])] + Project(s[1..]);
    }
  }

  /** Sorting before projecting only reorders the projected entries. */
  lemma {:induction false} ProjectSort(s: seq<Rec>)
    ensures multiset(Project(SortByScore(s))) == multiset(Project(s))
  {
    if s != [] {
      ProjectSort(s[1..]);
      ProjectInsert(s[0], SortByScore(s[1..]));
      assert Project(s) == [RankOf(s[0])] + Project(s[1..]);
    }
  }

  /** The records that score exactly `v`, in their original order. */
  function Tied(s: seq<Rec>, v: int): seq<Rec>
  {
    if s == [] then [] else (if s[0].score == v then [s[0]] else []) + Tied(s[1..], v)
  }

  lemma TiedCons(x: Rec, s: seq<Rec>, v: int)
    ensures Tied([x] + s, v) == (if x.score == v then [x] else []) + Tied(s, v)
  {
    assert ([x] + s)[1..] == s;
  }

  lemma {:induction false} InsertKeepsTies(r: Rec, s: seq<Rec>, v: int)
    ensures Tied(Insert(r, s), v) == (if r.score == v then [r] else []) + Tied(s, v)
  {
    if s == [] || r.score >= s[0].score {
      TiedCons(r, s, v);
    } else {
      var rest := Insert(r, s[1..]);
      assert Insert(r, s) == [s[0]] + rest;
      InsertKeepsTies(r, s[1..], v);
      TiedCons(s[0], rest, v);
      TiedCons(s[0], s[1..], v);
      assert [s[0]] + s[1..] == s;
      if r.score == v {
        assert s[0].score != v;
      } else {
        assert Tied(rest, v) == Tied(s[1..], v);
      }
    }
  }

  /** The sort is stable: records with equal scores keep their insertion order. */
  lemma {:induction false} SortIsStable(s: seq<Rec>, v: int)
    ensures Tied(SortByScore(s), v) == Tied(s, v)
  {
    if s != [] {
      SortIsStable(s[1..], v);
      InsertKeepsTies(s[0], SortByScore(s[1..]), v);
    }
  }
}
