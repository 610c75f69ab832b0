/**
 * The two orderings the store is asked for: the per-group user count sorted
 * by group (index.js:592-600) and the announcements newest first
 * (index.js:264). Both are computed by the database; here they are pure
 * functions with the properties the handlers rely on.
 */
module Aggregates {
  import opened Records

  /* ---------- strings in binary (code point) order ---------- */

  /** Strict lexicographic order by code point, as MongoDB's binary string comparison. */
  predicate Below(a: string, b: string)
    decreases |a|
  {
    if a == [] then b != []
    else if b == [] then false
    else if a[0] != b[0] then a[0] < b[0]
    else Below(a[1..], b[1..])
  }

  lemma {:induction false} BelowIrreflexive(a: string)
    ensures !Below(a, a)
    decreases |a|
  {
    if a != [] {
      BelowIrreflexive(a[1..]);
    }
  }

  lemma {:induction false} BelowTransitive(a: string, b: string, c: string)
    requires Below(a, b) && Below(b, c)
    ensures Below(a, c)
    decreases |a|
  {
    if a != [] && b != [] && c != [] && a[0] == b[0] && b[0] == c[0] {
      BelowTransitive(a[1..], b[1..], c[1..]);
    }
  }

  lemma {:induction false} BelowTotal(a: string, b: string)
    requires a != b
    ensures Below(a, b) || Below(b, a)
    decreases |a|
  {
    if a != [] && b != [] && a[0] == b[0] {
      assert a == [a[0]] + a[1..] && b == [b[0]] + b[1..];
      BelowTotal(a[1..], b[1..]);
    }
  }

  /* ---------- users per group ---------- */

  /** One row of the aggregation: a group and how many users chose it. */
  datatype GroupCount = GroupCount(group: string, count: nat)

  /** Rows strictly ascending by group, hence one row per group. */
  predicate Ascending(stats: seq<GroupCount>) {
    forall i, j :: 0 <= i < j < |stats| ==> Below(stats[i].group, stats[j].group)
  }

  predicate Positive(stats: seq<GroupCount>) {
    forall i :: 0 <= i < |stats| ==> stats[i].count > 0
  }

  /** The count a row list gives for `group`: the first row's, or 0 when it has none. */
  function CountOf(stats: seq<GroupCount>, group: string): nat {
    if stats == [] then 0
    else if stats[0].group == group then stats[0].count
    else CountOf(stats[1..], group)
  }

  /** How many users chose `group`. */
  function UsersIn(users: seq<UserBinding>, group: string): nat {
    if users == [] then 0
    else UsersIn(users[..|users| - 1], group) + (if users[|users| - 1].group == group then 1 else 0)
  }

  /** Counts one more user of `group` into ascending rows. */
  function AddOne(stats: seq<GroupCount>, group: string): (r: seq<GroupCount>)
    ensures forall i :: 0 <= i < |r| ==> r[i].group == group || exists k :: 0 <= k < |stats| && stats[k].group == r[i].group
  {
    if stats == [] then [GroupCount(group, 1)]
    else if stats[0].group == group then [GroupCount(group, stats[0].count + 1)] + stats[1..]
    else if Below(group, stats[0].group) then [GroupCount(group, 1)] + stats
    else [stats[0]] + AddOne(stats[1..], group)
  }

  /** `User.aggregate([{ $group: { _id: "$group", count: { $sum: 1 } } }, { $sort: { _id: 1 } }])`. */
  function GroupStats(users: seq<UserBinding>): seq<GroupCount> {
    if users == [] then []
    else AddOne(GroupStats(users[..|users| - 1]), users[|users| - 1].group)
  }

  lemma {:induction false} AbsentCountsZero(stats: seq<GroupCount>, group: string)
    requires forall k :: 0 <= k < |stats| ==> stats[k].group != group
    ensures CountOf(stats, group) == 0
  {
    if stats != [] {
      AbsentCountsZero(stats[1..], group);
    }
  }

  lemma AddOneCorrect(stats: seq<GroupCount>, group: string)
    requires Ascending(stats) && Positive(stats)
    ensures Ascending(AddOne(stats, group)) && Positive(AddOne(stats, group))
    ensures forall g :: CountOf(AddOne(stats, group), g) == CountOf(stats, g) + (if g == group then 1 else 0)
  {
    AddOneOrdered(stats, group);
    AddOneCounts(stats, group);
  }

  /** A group below the first of ascending rows is below all of them, so it has no row. */
  lemma BelowAll(stats: seq<GroupCount>, group: string)
    requires Ascending(stats) && stats != [] && Below(group, stats[0].group)
    ensures forall j :: 0 <= j < |stats| ==> Below(group, stats[j].group)
    ensures forall j :: 0 <= j < |stats| ==> stats[j].group != group
  {
    forall j | 0 < j < |stats| ensures Below(group, stats[j].group) {
      BelowTransitive(group, stats[0].group, stats[j].group);
    }
    BelowIrreflexive(group);
  }

  /** A row below every row of ascending rows keeps them ascending in front. */
  lemma ConsAscending(c: GroupCount, rest: seq<GroupCount>)
    requires Ascending(rest) && forall j :: 0 <= j < |rest| ==> Below(c.group, rest[j].group)
    ensures Ascending([c] + rest)
  {
    var r := [c] + rest;
    forall i, j | 0 <= i < j < |r| ensures Below(r[i].group, r[j].group) {
      assert r[j] == rest[j - 1];
      if i > 0 {
        assert r[i] == rest[i - 1];
      }
    }
  }

  lemma {:induction false} AddOneOrdered(stats: seq<GroupCount>, group: string)
    requires Ascending(stats) && Positive(stats)
    ensures Ascending(AddOne(stats, group)) && Positive(AddOne(stats, group))
  {
    var r := AddOne(stats, group);
    if stats == [] {
    } else if stats[0].group == group {
      ConsAscending(r[0], stats[1..]);
      assert r == [r[0]] + stats[1..];
    } else if Below(group, stats[0].group) {
      BelowAll(stats, group);
      ConsAscending(r[0], stats);
      assert r == [r[0]] + stats;
    } else {
      BelowTotal(group, stats[0].group);
      var tail := stats[1..];
      AddOneOrdered(tail, group);
      var rt := AddOne(tail, group);
      forall j | 0 <= j < |rt| ensures Below(stats[0].group, rt[j].group) {
        if rt[j].group != group {
          var k :| 0 <= k < |tail| && tail[k].group == rt[j].group;
          assert tail[k] == stats[k + 1];
        }
      }
      ConsAscending(stats[0], rt);
      assert r == [stats[0]] + rt;
    }
  }

  lemma {:induction false} AddOneCounts(stats: seq<GroupCount>, group: string)
    requires Ascending(stats)
    ensures forall g :: CountOf(AddOne(stats, group), g) == CountOf(stats, g) + (if g == group then 1 else 0)
  {
    var r := AddOne(stats, group);
    if stats == [] {
    } else if stats[0].group == group {
      assert r[1..] == stats[1..];
    } else if Below(group, stats[0].group) {
      BelowAll(stats, group);
      AbsentCountsZero(stats, group);
      assert r[1..] == stats;
    } else {
      AddOneCounts(stats[1..], group);
      assert r[1..] == AddOne(stats[1..], group);
    }
  }

  /**
   * The statistics are one row per group that has users, ascending by group,
   * and each row's count is the number of users who chose that group.
   */
  lemma {:induction false} GroupStatsCorrect(users: seq<UserBinding>)
    ensures Ascending(GroupStats(users)) && Positive(GroupStats(users))
    ensures forall g :: CountOf(GroupStats(users), g) == UsersIn(users, g)
  {
    if users != [] {
      var init := users[..|users| - 1];
      GroupStatsCorrect(init);
      AddOneCorrect(GroupStats(init), users[|users| - 1].group);
    }
  }

  /* ---------- announcements, newest first ---------- */

  predicate NewestFirst(s: seq<Announcement>) {
    forall i, j :: 0 <= i < j < |s| ==> s[i].date >= s[j].date
  }

  predicate StrictlyNewestFirst(s: seq<Announcement>) {
    forall i, j :: 0 <= i < j < |s| ==> s[i].date > s[j].date
  }

  predicate DistinctDates(s: seq<Announcement>) {
    forall i, j :: 0 <= i < j < |s| ==> s[i].date != s[j].date
  }

  /** Places `a` before the first entry that is not newer than it. */
  function Insert(a: Announcement, s: seq<Announcement>): (r: seq<Announcement>)
    ensures multiset(r) == multiset(s) + multiset{a}
    ensures |r| == |s| + 1
    ensures forall i :: 0 <= i < |r| ==> r[i] == a || r[i] in s
  {
    if s == [] || a.date >= s[0].date then [a] + s
    else
      assert s == [s[0]] + s[1..];
      [s[0]] + Insert(a, s[1..])
  }

  /**
   * `Announcement.find().sort({ date: -1 })`. MongoDB leaves the order of
   * equal dates open; this one keeps a fixed order for them.
   */
  function SortByDateDesc(s: seq<Announcement>): (r: seq<Announcement>)
    ensures |r| == |s|
    ensures multiset(r) == multiset(s)
  {
    if s == [] then []
    else
      assert s == s[..|s| - 1] + [s[|s| - 1]];
      Insert(s[|s| - 1], SortByDateDesc(s[..|s| - 1]))
  }

  lemma {:induction false} InsertSorted(a: Announcement, s: seq<Announcement>)
    requires NewestFirst(s)
    ensures NewestFirst(Insert(a, s))
  {
    if s != [] && a.date < s[0].date {
      InsertSorted(a, s[1..]);
      var rt := Insert(a, s[1..]);
      forall x | x in s[1..] ensures x.date <= s[0].date {
        var k :| 0 <= k < |s[1..]| && s[1..][k] == x;
        assert s[k + 1] == x;
      }
      assert Insert(a, s) == [s[0]] + rt;
    }
  }

  lemma {:induction false} InsertStrict(a: Announcement, s: seq<Announcement>)
    requires StrictlyNewestFirst(s)
    requires forall k :: 0 <= k < |s| ==> s[k].date != a.date
    ensures StrictlyNewestFirst(Insert(a, s))
  {
    if s != [] && a.date < s[0].date {
      InsertStrict(a, s[1..]);
      var rt := Insert(a, s[1..]);
      forall x | x in s[1..] ensures x.date < s[0].date {
        var k :| 0 <= k < |s[1..]| && s[1..][k] == x;
        assert s[k + 1] == x;
      }
      assert Insert(a, s) == [s[0]] + rt;
    }
  }

  /** The listing is newest first. */
  lemma {:induction false} SortIsNewestFirst(s: seq<Announcement>)
    ensures NewestFirst(SortByDateDesc(s))
  {
    if s != [] {
      var init := s[..|s| - 1];
      SortIsNewestFirst(init);
      InsertSorted(s[|s| - 1], SortByDateDesc(init));
    }
  }

  /** With pairwise distinct dates the listing is strictly descending by date. */
  lemma {:induction false} SortStrictWhenDistinct(s: seq<Announcement>)
    requires DistinctDates(s)
    ensures StrictlyNewestFirst(SortByDateDesc(s))
  {
    if s != [] {
      var init := s[..|s| - 1];
      var last := s[|s| - 1];
      var sorted := SortByDateDesc(init);
      SortStrictWhenDistinct(init);
      forall k | 0 <= k < |sorted| ensures sorted[k].date != last.date {
        assert sorted[k] in multiset(init);
        var m :| 0 <= m < |init| && init[m] == sorted[k];
        assert s[m] == sorted[k];
      }
      InsertStrict(last, sorted);
    }
  }
}
