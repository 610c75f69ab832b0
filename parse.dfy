/**
 * The bot's string parsing: the callback-data decoders, the `split(', ')`
 * positional destructuring of admin input, and the credential comparison.
 */
module Parse {
  import opened Wrappers
  import opened Strings
  import opened Records

  const ChangeGroupSuffix: string := "_changeGroup"
  const Underscore: string := "_"
  const FieldSeparator: string := ", "

  /** The hard-coded administrator name and password. */
  const AdminName: string := "Васильев Владимир Николаевич"
  const AdminPassword: string := "1683"

  /** `data.replace('_changeGroup', '')`: removes the FIRST occurrence, wherever it is. */
  function StripChangeGroup(data: string): string {
    ReplaceFirst(data, ChangeGroupSuffix, "")
  }

  /** `data.split('_')[2]`: absent when the data has fewer than two underscores. */
  function ThirdField(data: string): Option<string> {
    Field(Split(data, Underscore), 2)
  }

  /** `const [group, day, time, subject, location] = text.split(', ')` made into a Schedule record. */
  function ScheduleFromText(text: string): ScheduleEntry {
    var f := Split(text, FieldSeparator);
    ScheduleEntry(Field(f, 0), Field(f, 1), Field(f, 2), Field(f, 3), Field(f, 4))
  }

  /** `const [group, day] = text.split(', ')`: the lookup key of the edit flow. */
  function EditKey(text: string): (Option<string>, Option<string>) {
    var f := Split(text, FieldSeparator);
    (Field(f, 0), Field(f, 1))
  }

  /** `const [time, subject, location] = text.split(', ')` written over a found entry; group and day stay. */
  function Retimed(e: ScheduleEntry, text: string): ScheduleEntry {
    var f := Split(text, FieldSeparator);
    e.(time := Field(f, 0), subject := Field(f, 1), location := Field(f, 2))
  }

  /** The credential test: both captured texts must be present and equal the fixed pair exactly. */
  predicate Credentials(name: Option<string>, password: Option<string>) {
    name == Some(AdminName) && password == Some(AdminPassword)
  }

  lemma SeparatorsHeadUnique()
    ensures HeadUnique(ChangeGroupSuffix) && HeadUnique(Underscore) && HeadUnique(FieldSeparator)
  {
  }

  /**
   * Group-change decoding is the inverse of the button encoding `g + '_changeGroup'`
   * for any group code without an underscore. Because `replace` drops the first
   * occurrence rather than the suffix, whatever follows that occurrence is kept.
   */
  lemma {:induction false} StripChangeGroupOf(g: string, t: string)
    requires '_' !in g
    ensures StripChangeGroup(g + ChangeGroupSuffix + t) == g + t
  {
    SeparatorsHeadUnique();
    assert ChangeGroupSuffix[0] == '_';
    MissingCharNotContained(g, ChangeGroupSuffix, '_');
    FirstAfterPrefix(g, ChangeGroupSuffix, t);
    var s := g + ChangeGroupSuffix + t;
    assert s[..|g|] == g;
    assert s[|g| + |ChangeGroupSuffix|..] == t;
  }

  /** `split('_')[2]` of `a_b_g` is `g` when none of the three contains an underscore. */
  lemma {:induction false} ThirdFieldOf(a: string, b: string, g: string)
    requires '_' !in a && '_' !in b && '_' !in g
    ensures ThirdField(a + Underscore + b + Underscore + g) == Some(g)
  {
    SeparatorsHeadUnique();
    ContainsChar(a, '_');
    ContainsChar(b, '_');
    ContainsChar(g, '_');
    var parts := [a, b, g];
    assert Join(parts[2..], Underscore) == g;
    assert Join(parts[1..], Underscore) == b + Underscore + g;
    assert Join(parts, Underscore) == a + Underscore + b + Underscore + g;
    SplitJoin(parts, Underscore);
  }

  /** `split('_')[2]` of `a_b` is absent: the third field does not exist. */
  lemma {:induction false} ThirdFieldAbsent(a: string, b: string)
    requires '_' !in a && '_' !in b
    ensures ThirdField(a + Underscore + b) == None
  {
    SeparatorsHeadUnique();
    ContainsChar(a, '_');
    ContainsChar(b, '_');
    var parts := [a, b];
    assert Join(parts[1..], Underscore) == b;
    assert Join(parts, Underscore) == a + Underscore + b;
    SplitJoin(parts, Underscore);
  }

  /** `split(', ')` recovers fields joined with ", " when no field contains ", ". */
  lemma {:induction false} FieldsRoundTrip(fs: seq<string>)
    requires |fs| >= 1
    requires forall k :: 0 <= k < |fs| ==> !Contains(fs[k], FieldSeparator)
    ensures Split(Join(fs, FieldSeparator), FieldSeparator) == fs
  {
    SeparatorsHeadUnique();
    SplitJoin(fs, FieldSeparator);
  }

  /**
   * Schedule input "f0, f1, ..." fills the record by position: fields past the
   * fifth are dropped and missing ones are absent.
   */
  lemma {:induction false} ScheduleFromFields(fs: seq<string>)
    requires |fs| >= 1
    requires forall k :: 0 <= k < |fs| ==> !Contains(fs[k], FieldSeparator)
    ensures ScheduleFromText(Join(fs, FieldSeparator))
         == ScheduleEntry(Field(fs, 0), Field(fs, 1), Field(fs, 2), Field(fs, 3), Field(fs, 4))
  {
    FieldsRoundTrip(fs);
  }

  /** The edit flow's second answer overwrites time, subject and location by position; group and day are kept. */
  lemma {:induction false} RetimedFromFields(e: ScheduleEntry, fs: seq<string>)
    requires |fs| >= 1
    requires forall k :: 0 <= k < |fs| ==> !Contains(fs[k], FieldSeparator)
    ensures var r := Retimed(e, Join(fs, FieldSeparator));
      r.group == e.group && r.day == e.day
      && r.time == Field(fs, 0) && r.subject == Field(fs, 1) && r.location == Field(fs, 2)
  {
    FieldsRoundTrip(fs);
  }

  /** The edit flow's lookup key is the first two fields, by position. */
  lemma {:induction false} EditKeyFromFields(fs: seq<string>)
    requires |fs| >= 1
    requires forall k :: 0 <= k < |fs| ==> !Contains(fs[k], FieldSeparator)
    ensures EditKey(Join(fs, FieldSeparator)) == (Field(fs, 0), Field(fs, 1))
  {
    FieldsRoundTrip(fs);
  }
}
