/** The registration form's e-mail test, `/^[\w-\.]+@([\w-]+\.)+[\w-]{2,4}$/`
    on the lower-cased address, as a hand-written automaton that reads the
    address once from left to right, proved equal to a declarative
    description of the addresses the pattern accepts. */
module Email {
  import opened Strings

  /** `\w`: an ASCII letter, digit or underscore. */
  predicate IsWordChar(c: char) {
    ('a' <= c <= 'z') || ('A' <= c <= 'Z') || ('0' <= c <= '9') || c == '_'
  }

  /** `[\w-\.]`, the characters of the part before `@`. */
  predicate IsLocalChar(c: char) {
    IsWordChar(c) || c == '-' || c == '.'
  }

  /** `[\w-]`, the characters of a domain label. */
  predicate IsLabelChar(c: char) {
    IsWordChar(c) || c == '-'
  }

  ghost predicate AllLocalChars(s: string) {
    forall i :: 0 <= i < |s| ==> IsLocalChar(s[i])
  }

  ghost predicate AllLabelChars(s: string) {
    forall i :: 0 <= i < |s| ==> IsLabelChar(s[i])
  }

  /** A non-empty run of local characters. */
  ghost predicate LocalPart(s: string) {
    |s| > 0 && AllLocalChars(s)
  }

  /** A non-empty run of label characters. */
  ghost predicate Label(s: string) {
    |s| > 0 && AllLabelChars(s)
  }

  /** `s.split('.')`: the pieces between the dots, from left to right; there
      is always at least one. */
  function SplitDots(s: string): (r: seq<string>)
    ensures |r| >= 1
  {
    if |s| == 0 then [""]
    else
      var init := SplitDots(s[..|s| - 1]);
      if s[|s| - 1] == '.' then init + [""]
      else init[..|init| - 1] + [init[|init| - 1] + [s[|s| - 1]]]
  }

  /** Between the dots of a split there are no dots. */
  lemma {:induction false} SplitDotsHasNoDots(s: string, j: int, m: int)
    requires 0 <= j < |SplitDots(s)| && 0 <= m < |SplitDots(s)[j]|
    ensures SplitDots(s)[j][m] != '.'
    decreases |s|
  {
    if |s| > 0 {
      var init, c := s[..|s| - 1], s[|s| - 1];
      var ls := SplitDots(init);
      if c == '.' || j < |ls| - 1 || m < |ls[j]| {
        SplitDotsHasNoDots(init, j, m);
      }
    }
  }

  /** The domain: two or more labels separated by dots, the last of two to
      four characters. */
  ghost predicate ValidDomain(d: string) {
    var ls := SplitDots(d);
    |ls| >= 2 && (forall j :: 0 <= j < |ls| ==> Label(ls[j])) && 2 <= |ls[|ls| - 1]| <= 4
  }

  /** The addresses the pattern accepts: a local part, `@`, and a domain. */
  ghost predicate EmailShape(s: string) {
    exists k | 0 <= k < |s| :: s[k] == '@' && LocalPart(s[..k]) && ValidDomain(s[k + 1..])
  }

  // ---------------------------------------------------------------------------
  // The automaton

  /** `Start` before the first character; `InLocal` inside the local part;
      `LabelStart` just after the `@` or a dot of the domain; `InLabel` inside
      a label of `len` characters (counted up to 5, which stands for "more than
      four"); `dotted` records whether the domain has had a dot yet. */
  datatype State = Start | InLocal | LabelStart(dotted: bool) | InLabel(len: nat, dotted: bool) | Dead

  function Step(q: State, c: char): State {
    match q
    case Start => if IsLocalChar(c) then InLocal else Dead
    case InLocal => if IsLocalChar(c) then InLocal else if c == '@' then LabelStart(false) else Dead
    case LabelStart(d) => if IsLabelChar(c) then InLabel(1, d) else Dead
    case InLabel(n, d) =>
      if IsLabelChar(c) then InLabel(if n < 5 then n + 1 else 5, d)
      else if c == '.' then LabelStart(true)
      else Dead
    case Dead => Dead
  }

  /** The state after reading `s` from `q`. */
  function Run(q: State, s: string): State {
    if |s| == 0 then q else Step(Run(q, s[..|s| - 1]), s[|s| - 1])
  }

  predicate Accepting(q: State) {
    q.InLabel? && q.dotted && 2 <= q.len <= 4
  }

  lemma {:induction false} RunConcat(q: State, a: string, b: string)
    ensures Run(q, a + b) == Run(Run(q, a), b)
    decreases |b|
  {
    if |b| == 0 {
      assert a + b == a;
    } else {
      assert (a + b)[..|a + b| - 1] == a + b[..|b| - 1];
      RunConcat(q, a, b[..|b| - 1]);
    }
  }

  lemma RunOne(q: State, c: char)
    ensures Run(q, [c]) == Step(q, c)
  {
    assert [c][..0] == [];
  }

  lemma {:induction false} RunDead(s: string)
    ensures Run(Dead, s) == Dead
    decreases |s|
  {
    if |s| > 0 {
      RunDead(s[..|s| - 1]);
    }
  }

  /** Lower-casing changes no character class the automaton looks at. */
  lemma StepLower(q: State, c: char)
    ensures Step(q, LowerChar(c)) == Step(q, c)
  {
  }

  /** The automaton does not see letter case. */
  lemma {:induction false} RunLower(q: State, s: string)
    ensures Run(q, Lower(s)) == Run(q, s)
    decreases |s|
  {
    if |s| > 0 {
      assert Lower(s)[..|s| - 1] == Lower(s[..|s| - 1]);
      RunLower(q, s[..|s| - 1]);
      StepLower(Run(q, s[..|s| - 1]), s[|s| - 1]);
    }
  }

  /** Before the `@`: empty, a local part, or dead. */
  lemma {:induction false} RunLocal(s: string)
    requires forall i :: 0 <= i < |s| ==> s[i] != '@'
    ensures Run(Start, s) == if |s| == 0 then Start else if AllLocalChars(s) then InLocal else Dead
    decreases |s|
  {
    if |s| > 0 {
      var init := s[..|s| - 1];
      RunLocal(init);
      if !AllLocalChars(init) {
        var i :| 0 <= i < |init| && !IsLocalChar(init[i]);
        assert s[i] == init[i];
      }
      if |s| == 1 {
        assert s == [s[0]];
      }
    }
  }

  /** The state the automaton reaches on the domain text `d` after the `@`,
      described through the split of `d`. */
  ghost function DomState(d: string): State {
    var ls := SplitDots(d);
    var last := ls[|ls| - 1];
    if !((forall j :: 0 <= j < |ls| - 1 ==> Label(ls[j])) && AllLabelChars(last)) then Dead
    else if last == "" then LabelStart(|ls| >= 2)
    else InLabel(if |last| < 5 then |last| else 5, |ls| >= 2)
  }

  lemma SplitDotsStep(s: string, c: char)
    ensures SplitDots(s + [c])
         == if c == '.' then SplitDots(s) + [""]
            else SplitDots(s)[..|SplitDots(s)| - 1] + [SplitDots(s)[|SplitDots(s)| - 1] + [c]]
  {
    assert (s + [c])[..|s|] == s;
  }

  /** A dot after a dead or empty label, or any character that cannot
      continue the current label, kills the run. */
  lemma DomStepDot(s: string)
    ensures Step(DomState(s), '.') == DomState(s + ['.'])
  {
    SplitDotsStep(s, '.');
    var ls := SplitDots(s);
    var ls' := SplitDots(s + ['.']);
    assert ls' == ls + [""];
    assert ls'[|ls| - 1] == ls[|ls| - 1];
    forall j | 0 <= j < |ls| ensures ls'[j] == ls[j] { }
  }

  lemma DomStepLabelChar(s: string, c: char)
    requires c != '.'
    ensures Step(DomState(s), c) == DomState(s + [c])
  {
    SplitDotsStep(s, c);
    var ls := SplitDots(s);
    var ls' := SplitDots(s + [c]);
    var last := ls[|ls| - 1];
    var dotted := |ls| >= 2;
    assert |ls'| == |ls| && ls'[|ls| - 1] == last + [c];
    forall j | 0 <= j < |ls| - 1 ensures ls'[j] == ls[j] { }
    var ok := forall j :: 0 <= j < |ls| - 1 ==> Label(ls[j]);
    assert ok <==> forall j :: 0 <= j < |ls'| - 1 ==> Label(ls'[j]);
    if !(ok && AllLabelChars(last)) {
      if !AllLabelChars(last) {
        var i :| 0 <= i < |last| && !IsLabelChar(last[i]);
        assert (last + [c])[i] == last[i];
      }
      assert DomState(s) == Dead && DomState(s + [c]) == Dead;
    } else if !IsLabelChar(c) {
      assert (last + [c])[|last|] == c;
      assert DomState(s + [c]) == Dead;
    } else {
      assert AllLabelChars(last + [c]);
      if last == "" {
        assert DomState(s) == LabelStart(dotted);
        assert DomState(s + [c]) == InLabel(1, dotted);
      } else {
        assert DomState(s) == InLabel(if |last| < 5 then |last| else 5, dotted);
        assert DomState(s + [c]) == InLabel(if |last| + 1 < 5 then |last| + 1 else 5, dotted);
      }
    }
  }

  /** On the domain the automaton computes `DomState`. */
  lemma {:induction false} RunDomain(d: string)
    ensures Run(LabelStart(false), d) == DomState(d)
    decreases |d|
  {
    if |d| == 0 {
      assert SplitDots(d) == [""];
    } else {
      var init, c := d[..|d| - 1], d[|d| - 1];
      assert d == init + [c];
      RunDomain(init);
      if c == '.' {
        DomStepDot(init);
      } else {
        DomStepLabelChar(init, c);
      }
    }
  }

  lemma DomAccept(d: string)
    ensures Accepting(DomState(d)) <==> ValidDomain(d)
  {
    var ls := SplitDots(d);
    if ValidDomain(d) {
      assert Label(ls[|ls| - 1]);
    }
  }

  /** The first `@` of a string that has one. */
  function FirstAt(s: string): (k: nat)
    requires '@' in s
    ensures k < |s| && s[k] == '@'
    ensures forall j :: 0 <= j < k ==> s[j] != '@'
  {
    if s[0] == '@' then 0 else 1 + FirstAt(s[1..])
  }

  lemma LocalPartHasNoAt(t: string, i: int)
    requires LocalPart(t) && 0 <= i < |t|
    ensures t[i] != '@'
  {
  }

  /** A local part holds no `@`, so the `@` of a match is the first one. */
  lemma OnlyWitness(s: string, k: int, k': int)
    requires 0 <= k < |s| && s[k] == '@' && forall j :: 0 <= j < k ==> s[j] != '@'
    requires 0 <= k' < |s| && s[k'] == '@' && LocalPart(s[..k'])
    ensures k' == k
  {
    if k' > k {
      LocalPartHasNoAt(s[..k'], k);
    }
  }

  /** Where the first `@` is at `k`, the description is about the text on
      either side of it. */
  lemma ShapeAtFirstAt(s: string, k: int)
    requires 0 <= k < |s| && s[k] == '@' && forall j :: 0 <= j < k ==> s[j] != '@'
    ensures EmailShape(s) <==> LocalPart(s[..k]) && ValidDomain(s[k + 1..])
  {
    if EmailShape(s) {
      var k' :| 0 <= k' < |s| && s[k'] == '@' && LocalPart(s[..k']) && ValidDomain(s[k' + 1..]);
      OnlyWitness(s, k, k');
    }
  }

  /** Reading up to the first `@`, the `@`, and then the domain. */
  lemma RunAtFirstAt(s: string, k: int)
    requires 0 <= k < |s| && s[k] == '@'
    ensures Run(Start, s) == Run(Step(Run(Start, s[..k]), '@'), s[k + 1..])
  {
    var local, d := s[..k], s[k + 1..];
    assert s == local + ([s[k]] + d);
    RunConcat(Start, local, [s[k]] + d);
    RunConcat(Run(Start, local), [s[k]], d);
    RunOne(Run(Start, local), '@');
  }

  lemma RecogniserNoAt(s: string)
    requires '@' !in s
    ensures !Accepting(Run(Start, s)) && !EmailShape(s)
  {
    forall k | 0 <= k < |s| ensures s[k] != '@' {
      assert s[k] in s;
    }
    RunLocal(s);
  }

  lemma RecogniserAt(s: string)
    requires '@' in s
    ensures Accepting(Run(Start, s)) <==> EmailShape(s)
  {
    var k := FirstAt(s);
    var local, d := s[..k], s[k + 1..];
    RunAtFirstAt(s, k);
    ShapeAtFirstAt(s, k);
    RunLocal(local);
    if LocalPart(local) {
      assert Step(Run(Start, local), '@') == LabelStart(false);
      RunDomain(d);
      DomAccept(d);
    } else {
      assert Step(Run(Start, local), '@') == Dead;
      RunDead(d);
    }
  }

  /** The automaton accepts exactly the addresses of the description. */
  lemma RecogniserCorrect(s: string)
    ensures Accepting(Run(Start, s)) <==> EmailShape(s)
  {
    if '@' in s {
      RecogniserAt(s);
    } else {
      RecogniserNoAt(s);
    }
  }

  /** `validateEmail`: the pattern on the lower-cased address. Since every
      character class of the pattern is closed under lower-casing, the
      address itself has the shape exactly when it is accepted. */
  function ValidateEmail(email: string): (r: bool)
    ensures r <==> EmailShape(email)
  {
    RunLower(Start, email);
    RecogniserCorrect(email);
    Accepting(Run(Start, Lower(email)))
  }

  /** Every character of a domain whose pieces are labels is a dot or a
      label character. */
  lemma {:induction false} DomainChars(d: string)
    requires forall j :: 0 <= j < |SplitDots(d)| ==> AllLabelChars(SplitDots(d)[j])
    ensures forall i :: 0 <= i < |d| ==> d[i] == '.' || IsLabelChar(d[i])
    decreases |d|
  {
    if |d| > 0 {
      var init, c := d[..|d| - 1], d[|d| - 1];
      assert d == init + [c];
      SplitDotsStep(init, c);
      var ls := SplitDots(init);
      var ls' := SplitDots(d);
      if c == '.' {
        forall j | 0 <= j < |ls| ensures AllLabelChars(ls[j]) {
          assert ls'[j] == ls[j];
        }
      } else {
        var last := ls[|ls| - 1];
        forall j | 0 <= j < |ls| ensures AllLabelChars(ls[j]) {
          if j < |ls| - 1 {
            assert ls'[j] == ls[j];
          } else {
            assert ls'[j] == last + [c];
            forall m | 0 <= m < |last| ensures IsLabelChar(last[m]) {
              assert (last + [c])[m] == last[m];
            }
          }
        }
        assert ls'[|ls| - 1] == last + [c];
        assert (last + [c])[|last|] == c;
      }
      DomainChars(init);
      forall i | 0 <= i < |d| ensures d[i] == '.' || IsLabelChar(d[i]) {
        if i < |init| {
          assert d[i] == init[i];
        }
      }
    }
  }

  lemma DomainHasNoAt(d: string, i: int)
    requires forall j :: 0 <= j < |SplitDots(d)| ==> AllLabelChars(SplitDots(d)[j])
    requires 0 <= i < |d|
    ensures d[i] != '@'
  {
    DomainChars(d);
  }

  /** An accepted address has exactly one `@`. */
  lemma EmailShapeOneAt(s: string)
    requires EmailShape(s)
    ensures '@' in s
    ensures forall i, j :: 0 <= i < |s| && 0 <= j < |s| && s[i] == '@' && s[j] == '@' ==> i == j
  {
    var k :| 0 <= k < |s| && s[k] == '@' && LocalPart(s[..k]) && ValidDomain(s[k + 1..]);
    var d := s[k + 1..];
    forall i | 0 <= i < |s| && s[i] == '@' ensures i == k {
      if i < k {
        LocalPartHasNoAt(s[..k], i);
      } else if i > k {
        DomainHasNoAt(d, i - k - 1);
      }
    }
  }

  lemma RunSnoc(q: State, s: string, c: char)
    ensures Run(q, s + [c]) == Step(Run(q, s), c)
  {
    assert (s + [c])[..|s|] == s;
  }

  /** A few addresses: a two-letter top-level label is accepted, a
      one-letter one and a missing dot are not. */
  lemma ValidateEmailExamples()
    ensures ValidateEmail("a@b.cd")
    ensures !ValidateEmail("a@b.c")
    ensures !ValidateEmail("a@bc")
  {
    assert Lower("a@b.cd") == "a@b.cd";
    assert Lower("a@b.c") == "a@b.c";
    assert Lower("a@bc") == "a@bc";
    RunSnoc(Start, "", 'a');
    assert "" + ['a'] == "a";
    RunSnoc(Start, "a", '@');
    assert "a" + ['@'] == "a@";
    RunSnoc(Start, "a@", 'b');
    assert "a@" + ['b'] == "a@b";
    RunSnoc(Start, "a@b", '.');
    assert "a@b" + ['.'] == "a@b.";
    RunSnoc(Start, "a@b.", 'c');
    assert "a@b." + ['c'] == "a@b.c";
    RunSnoc(Start, "a@b.c", 'd');
    assert "a@b.c" + ['d'] == "a@b.cd";
    RunSnoc(Start, "a@b", 'c');
    assert "a@b" + ['c'] == "a@bc";
  }
}
