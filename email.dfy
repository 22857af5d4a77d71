/**
 * The lead handler's address check, `EMAIL_RE.match(email)` with the pattern
 * `^[^@\s]+@[^@\s]+\.[^@\s]+$`.  The pattern is run as a deterministic
 * automaton (the executable side) and proved equal to a declarative
 * description of the accepted addresses: a non-empty local part, one `@`,
 * and a domain with a dot that has a character on each side.
 */
module Email {
  import opened Text

  /** A character of the class `[^@\s]`. */
  predicate Plain(c: char)
  {
    c != '@' && !IsSpace(c)
  }

  predicate AllPlain(s: string)
  {
    forall k :: 0 <= k < |s| ==> Plain(s[k])
  }

  /**
   * States of the automaton for `[^@\s]+@[^@\s]+\.[^@\s]+`:
   * Local = inside the local part, AtSign = just read the `@`, Host = some
   * domain read but no usable dot yet, Dot = just read a dot that has a
   * domain character before it, Accept = a dot with a character on each side.
   */
  datatype State = Start | Local | AtSign | Host | Dot | Accept | Reject

  function Step(q: State, c: char): State
  {
    match q
    case Start => if Plain(c) then Local else Reject
    case Local => if c == '@' then AtSign else if Plain(c) then Local else Reject
    case AtSign => if Plain(c) then Host else Reject
    case Host => if c == '.' then Dot else if Plain(c) then Host else Reject
    case Dot => if Plain(c) then Accept else Reject
    case Accept => if Plain(c) then Accept else Reject
    case Reject => Reject
  }

  /** The state reached after reading all of `s`. */
  function Run(s: string): State
    decreases |s|
  {
    if s == [] then Start else Step(Run(s[..|s| - 1]), s[|s| - 1])
  }

  /** The pattern matches the whole of `s`. */
  predicate FullMatch(s: string)
  {
    Run(s) == Accept
  }

  /**
   * `EMAIL_RE.match(s)`: `re.match` anchors at the start, and `$` matches at
   * the end of the string or just before a newline that ends it.
   */
  predicate Matches(s: string)
  {
    FullMatch(s) || (|s| > 0 && s[|s| - 1] == '\n' && FullMatch(s[..|s| - 1]))
  }

  // ---------------------------------------------------------------------------
  // The declarative description

  /** A domain `A + "." + B` with `A`, `B` non-empty, all of it `[^@\s]`. */
  ghost predicate IsDomain(d: string)
  {
    AllPlain(d) && exists k :: 0 < k < |d| - 1 && d[k] == '.'
  }

  /** `L + "@" + D` with `L` a non-empty run of `[^@\s]` and `D` a domain. */
  ghost predicate IsAddress(s: string)
  {
    exists i :: 0 < i < |s| && s[i] == '@' && AllPlain(s[..i]) && IsDomain(s[i + 1..])
  }

  /** Index of the first `@` in `s`, or `|s|` when there is none. */
  function FirstAt(s: string): (i: nat)
    ensures i <= |s|
    ensures forall k :: 0 <= k < i ==> s[k] != '@'
    ensures i < |s| ==> s[i] == '@'
    decreases |s|
  {
    if s == [] then 0
    else
      var i := FirstAt(s[..|s| - 1]);
      if i < |s| - 1 || s[|s| - 1] == '@' then i else |s|
  }

  /** The state the automaton is in after the `@`, read off the domain so far. */
  function DomainState(d: string): State
  {
    if !AllPlain(d) then Reject
    else if d == [] then AtSign
    else if exists k :: 0 < k < |d| - 1 && d[k] == '.' then Accept
    else if |d| >= 2 && d[|d| - 1] == '.' then Dot
    else Host
  }

  /** The state the automaton is in after `s`, read off `s` directly. */
  function Classify(s: string): State
  {
    var i := FirstAt(s);
    if s == [] then Start
    else if i == |s| then (if AllPlain(s) then Local else Reject)
    else if i == 0 || !AllPlain(s[..i]) then Reject
    else DomainState(s[i + 1..])
  }

  /** Reading one more domain character moves `DomainState` as `Step` does. */
  lemma DomainStep(d: string, c: char)
    ensures DomainState(d + [c]) == Step(DomainState(d), c)
  {
    var d' := d + [c];
    assert d'[..|d|] == d;
    if AllPlain(d) && Plain(c) {
      assert AllPlain(d');
      if |d'| >= 2 {
        assert d'[1..|d'| - 1] == d[1..];
        if |d| >= 2 {
          assert d[1..] == d[1..|d| - 1] + [d[|d| - 1]];
        }
      }
    } else if !AllPlain(d) {
      assert !AllPlain(d');
    } else {
      assert !Plain(d'[|d|]);
    }
  }

  /** Before the first `@`, one more character moves `Classify` as `Step` does. */
  lemma ClassifyStepLocal(p: string, c: char)
    requires p != [] && FirstAt(p) == |p|
    ensures Classify(p + [c]) == Step(Classify(p), c)
  {
    FirstAtExtend(p, c);
    if c == '@' {
      assert (p + [c])[..|p|] == p;
      assert (p + [c])[|p| + 1..] == [];
    } else {
      AllPlainSnoc(p, c);
    }
  }

  /** `p + [c]` is all `[^@\s]` exactly when `p` is and `c` is. */
  lemma AllPlainSnoc(p: string, c: char)
    ensures AllPlain(p + [c]) <==> AllPlain(p) && Plain(c)
  {
    var s := p + [c];
    if AllPlain(s) {
      forall k | 0 <= k < |p| ensures Plain(p[k]) {
        assert s[k] == p[k];
      }
      assert s[|p|] == c;
    }
  }

  /** After the first `@`, one more character moves `Classify` as `Step` does. */
  lemma ClassifyStepDomain(p: string, c: char)
    requires FirstAt(p) < |p|
    ensures Classify(p + [c]) == Step(Classify(p), c)
  {
    var i := FirstAt(p);
    FirstAtExtend(p, c);
    SnocSlices(p, c, i);
    DomainStep(p[i + 1..], c);
  }

  /** Slicing `p + [c]` at or before the end of `p`. */
  lemma SnocSlices(p: string, c: char, i: nat)
    requires i < |p|
    ensures (p + [c])[..i] == p[..i]
    ensures (p + [c])[i + 1..] == p[i + 1..] + [c]
  {
  }

  /** The automaton's state is exactly the one `Classify` reads off. */
  lemma {:induction false} RunClassify(s: string)
    ensures Run(s) == Classify(s)
    decreases |s|
  {
    if s != [] {
      var p, c := s[..|s| - 1], s[|s| - 1];
      assert s == p + [c];
      RunClassify(p);
      if p == [] {
        assert s == [c];
      } else if FirstAt(p) == |p| {
        ClassifyStepLocal(p, c);
      } else {
        ClassifyStepDomain(p, c);
      }
    }
  }

  lemma FirstAtExtend(p: string, c: char)
    ensures FirstAt(p + [c]) == if FirstAt(p) < |p| || c == '@' then FirstAt(p) else |p| + 1
  {
    assert (p + [c])[..|p|] == p;
  }

  /** Any `@` that follows a run of `[^@\s]` is the first `@`. */
  lemma FirstAtIs(s: string, i: nat)
    requires i < |s| && s[i] == '@' && AllPlain(s[..i])
    ensures FirstAt(s) == i
  {
    forall k | 0 <= k < i ensures s[k] != '@' {
      assert s[..i][k] == s[k];
    }
  }

  /** The domain is accepted by the automaton exactly when it has the domain shape. */
  lemma DomainAccept(d: string)
    ensures DomainState(d) == Accept <==> IsDomain(d)
  {
  }


  /**
   * The automaton accepts the whole of `s` exactly when `s` is a local part,
   * one `@` and a domain with an inner dot.
   */
  lemma FullMatchIff(s: string)
    ensures FullMatch(s) <==> IsAddress(s)
  {
    RunClassify(s);
    var i := FirstAt(s);
    if FullMatch(s) {
      DomainAccept(s[i + 1..]);
      assert 0 < i < |s| && s[i] == '@' && AllPlain(s[..i]) && IsDomain(s[i + 1..]);
    }
    if IsAddress(s) {
      var j :| 0 < j < |s| && s[j] == '@' && AllPlain(s[..j]) && IsDomain(s[j + 1..]);
      FirstAtIs(s, j);
      DomainAccept(s[j + 1..]);
    }
  }

  /**
   * `EMAIL_RE.match(s)` succeeds exactly for an address, or an address
   * followed by one final newline.
   */
  lemma MatchesIff(s: string)
    ensures Matches(s) <==> IsAddress(s) || (|s| > 0 && s[|s| - 1] == '\n' && IsAddress(s[..|s| - 1]))
  {
    FullMatchIff(s);
    if |s| > 0 {
      FullMatchIff(s[..|s| - 1]);
    }
  }

  /** The same shape stated on the pieces: `l + "@" + d` is an address iff `l` and `d` qualify. */
  lemma AddressParts(l: string, d: string)
    ensures IsAddress(l + "@" + d) <==> l != [] && AllPlain(l) && IsDomain(d)
  {
    var s := l + "@" + d;
    assert s[|l|] == '@' && s[..|l|] == l && s[|l| + 1..] == d;
    if IsAddress(s) {
      var i :| 0 < i < |s| && s[i] == '@' && AllPlain(s[..i]) && IsDomain(s[i + 1..]);
      forall k | 0 <= k < |s| && k != i ensures s[k] != '@' {
        if k < i {
          assert s[..i][k] == s[k];
        } else {
          assert s[i + 1..][k - i - 1] == s[k];
        }
      }
      assert i == |l|;
    }
  }

  /** A full match contains no whitespace. */
  lemma FullMatchNoSpace(s: string)
    requires FullMatch(s)
    ensures forall k :: 0 <= k < |s| ==> !IsSpace(s[k])
  {
    FullMatchIff(s);
    var i :| 0 < i < |s| && s[i] == '@' && AllPlain(s[..i]) && IsDomain(s[i + 1..]);
    forall k | 0 <= k < |s| ensures !IsSpace(s[k]) {
      if k < i {
        assert s[..i][k] == s[k];
      } else if k > i {
        assert s[i + 1..][k - i - 1] == s[k];
      }
    }
  }

  /**
   * What the lead log stores: stripping an accepted address removes the one
   * newline `$` lets through and nothing else, leaving a full match.
   */
  lemma StrippedMatch(s: string)
    requires Matches(s)
    ensures FullMatch(Strip(s))
    ensures Strip(s) == if FullMatch(s) then s else s[..|s| - 1]
  {
    if FullMatch(s) {
      StripFullMatch(s);
    } else {
      StripMatchBeforeNewline(s);
    }
  }

  lemma StripFullMatch(s: string)
    requires FullMatch(s)
    ensures Strip(s) == s
  {
    FullMatchNoSpace(s);
    StripNoSpace(s);
  }

  lemma StripMatchBeforeNewline(s: string)
    requires |s| > 0 && s[|s| - 1] == '\n' && FullMatch(s[..|s| - 1])
    ensures Strip(s) == s[..|s| - 1]
  {
    var t := s[..|s| - 1];
    FullMatchNoSpace(t);
    StripTrailingNewline(t);
    assert t + "\n" == s;
  }

  lemma StripTrailingNewline(t: string)
    requires forall k :: 0 <= k < |t| ==> !IsSpace(t[k])
    ensures Strip(t + "\n") == t
  {
    var s := t + "\n";
    assert s[..|s| - 1] == t;
    assert IsSpace(s[|s| - 1]);
    assert TrimEnd(s) == TrimEnd(t);
    if t == [] {
      assert TrimStart(s) == TrimStart([]);
    } else {
      assert !IsSpace(t[|t| - 1]);
      assert TrimEnd(t) == t;
      assert !IsSpace(s[0]);
      assert TrimStart(s) == s;
    }
  }
}
