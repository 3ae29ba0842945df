/** An accepted object ends the text: whatever follows it, only space is tolerated. */
module JsonTail {
  import opened Wrappers
  import opened Json

  predicate Spaces(t: string) { forall i :: 0 <= i < |t| ==> Space(t[i]) }

  lemma {:induction false} SkipSpaces(t: string)
    ensures SkipSpace(t) == "" <==> Spaces(t)
  {
    if t != "" && Space(t[0]) { SkipSpaces(t[1..]); }
  }

  lemma {:induction false} SkipThen(s: string, t: string)
    requires SkipSpace(s) != ""
    ensures SkipSpace(s + t) == SkipSpace(s) + t
  {
    assert (s + t)[0] == s[0];
    if Space(s[0]) {
      assert (s + t)[1..] == s[1..] + t;
      SkipThen(s[1..], t);
    }
  }

  lemma EscapeThen(s: string, t: string)
    requires ReadEscape(s).Some?
    ensures ReadEscape(s + t) == Some((ReadEscape(s).value.0, ReadEscape(s).value.1 + t))
  {
    var x := s + t;
    assert x[0] == s[0] && x[1..] == s[1..] + t;
    if s[0] == 'u' {
      assert x[1] == s[1] && x[2] == s[2] && x[3] == s[3] && x[4] == s[4] && x[5..] == s[5..] + t;
    }
    hide Hex, Utf8;
  }

  lemma {:induction false} StringThen(s: string, t: string)
    requires ReadString(s).Some?
    ensures ReadString(s + t) == Some((ReadString(s).value.0, ReadString(s).value.1 + t))
    decreases |s|
  {
    assert (s + t)[0] == s[0] && (s + t)[1..] == s[1..] + t;
    if s[0] == '\\' {
      EscapeThen(s[1..], t);
      StringThen(ReadEscape(s[1..]).value.1, t);
    } else if s[0] != '"' {
      StringThen(s[1..], t);
    }
    hide ReadEscape;
  }

  lemma ValueThen(s: string, t: string)
    requires ReadValue(s).Some?
    ensures ReadValue(s + t) == Some((ReadValue(s).value.0, ReadValue(s).value.1 + t))
  {
    assert (s + t)[0] == s[0];
    if s[0] == '"' {
      assert (s + t)[1..] == s[1..] + t;
      StringThen(s[1..], t);
    } else {
      assert (s + t)[..4] == s[..4] && (s + t)[4..] == s[4..] + t;
    }
    hide ReadString;
  }

  function Then(m: Member, t: string): Member { m.(rest := m.rest + t) }

  lemma PairThen(q: string, t: string)
    requires ReadPair(q).Some?
    ensures ReadPair(q + t) == Some(Then(ReadPair(q).value, t))
  {
    assert (q + t)[0] == q[0] && (q + t)[1..] == q[1..] + t;
    StringThen(q[1..], t);
    var after := ReadString(q[1..]).value.1;
    SkipThen(after, t);
    var colon := SkipSpace(after);
    assert (colon + t)[0] == colon[0] && (colon + t)[1..] == colon[1..] + t;
    assert ReadValue(SkipSpace(colon[1..])).Some?;
    assert SkipSpace(colon[1..]) != "";
    SkipThen(colon[1..], t);
    ValueThen(SkipSpace(colon[1..]), t);
    hide ReadString, SkipSpace, ReadValue;
  }

  lemma MemberThen(s: string, t: string, first: bool)
    requires ReadMember(s, first).Some?
    ensures ReadMember(s + t, first) == Some(Then(ReadMember(s, first).value, t))
  {
    if first {
      PairThen(s, t);
    } else {
      assert (s + t)[0] == s[0] && (s + t)[1..] == s[1..] + t;
      assert SkipSpace(s[1..]) != "";
      SkipThen(s[1..], t);
      PairThen(SkipSpace(s[1..]), t);
    }
    hide ReadPair, SkipSpace;
  }

  lemma {:induction false} MembersThen(shape: Shape, s: string, first: bool, acc: map<string, Value>, t: string)
    requires ReadMembers(shape, s, first, acc).Some?
    ensures ReadMembers(shape, s + t, first, acc) == if Spaces(t) then ReadMembers(shape, s, first, acc) else None
    decreases |s|
  {
    var q := SkipSpace(s);
    SkipThen(s, t);
    assert (q + t)[0] == q[0];
    if q[0] == '}' {
      EndThen(q, t);
    } else {
      MemberThen(q, t, first);
      var m := ReadMember(q, first).value;
      MembersThen(shape, m.rest, false, acc[m.key := m.value], t);
    }
    hide ReadMember, SkipSpace, Spaces;
  }

  lemma EndThen(q: string, t: string)
    requires q != "" && SkipSpace(q[1..]) == ""
    ensures SkipSpace((q + t)[1..]) == "" <==> Spaces(t)
  {
    assert (q + t)[1..] == q[1..] + t;
    SkipSpaces(q[1..] + t);
    SkipSpaces(q[1..]);
    assert Spaces(q[1..] + t) <==> Spaces(t) by {
      if Spaces(q[1..] + t) { forall i | 0 <= i < |t| ensures Space(t[i]) { assert t[i] == (q[1..] + t)[|q| - 1 + i]; } }
    }
  }

  /** An accepted text with more after it: accepted as the same object if that is space, and
      otherwise refused. */
  lemma NothingFollows(shape: Shape, s: string, t: string)
    requires ReadObject(shape, s).Some?
    ensures ReadObject(shape, s + t) == if Spaces(t) then ReadObject(shape, s) else None
  {
    var q := SkipSpace(s);
    SkipThen(s, t);
    assert (q + t)[0] == q[0] && (q + t)[1..] == q[1..] + t;
    MembersThen(shape, q[1..], true, map[], t);
    hide ReadMembers, SkipSpace, Spaces;
  }

  lemma {:induction false} MembersClean(shape: Shape, s: string, first: bool, acc: map<string, Value>)
    requires ReadMembers(shape, s, first, acc).Some? && Clean(shape, acc)
    ensures Clean(shape, ReadMembers(shape, s, first, acc).value)
    decreases |s|
  {
    var q := SkipSpace(s);
    if q[0] != '}' {
      var m := ReadMember(q, first).value;
      MembersClean(shape, m.rest, false, acc[m.key := m.value]);
    }
    hide ReadMember, SkipSpace;
  }

  ghost predicate Clean(shape: Shape, m: map<string, Value>) {
    && m.Keys <= shape.keys
    && forall k :: k in m ==> (m[k].Null? ==> shape.nullable) && (m[k].Text? ==> forall i :: 0 <= i < |m[k].text| ==> m[k].text[i] as int != 0)
  }

  /** What an object's reader hands out: known keys, null only where it may stand, and no text
      with a NUL in it. */
  lemma ObjectClean(shape: Shape, s: string)
    requires ReadObject(shape, s).Some?
    ensures Clean(shape, ReadObject(shape, s).value)
  {
    hide ReadMembers;
    MembersClean(shape, SkipSpace(s)[1..], true, map[]);
  }
}
