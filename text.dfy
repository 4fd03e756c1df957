/** The few Python string operations both ends of the protocol rely on, with the
    meaning Python gives them: str.strip(), str.split(sep), sep.join(parts),
    str.split() on whitespace, str(n) for a natural number and int(s). */
module Text {

  datatype Option<T> = None | Some(value: T)

  /** The characters Python's str.isspace() accepts; strip() and split() drop them. */
  predicate IsSpace(c: char)
  {
    c == ' ' || ('\t' <= c <= '\r') || ('\U{1c}' <= c <= '\U{1f}') || c == '\U{85}' || c == '\U{a0}'
    || c == '\U{1680}' || ('\U{2000}' <= c <= '\U{200a}') || c == '\U{2028}' || c == '\U{2029}'
    || c == '\U{202f}' || c == '\U{205f}' || c == '\U{3000}'
  }

  /** s.lstrip(): the longest suffix of s that does not start with whitespace. */
  function TrimLeft(s: string): (r: string)
    ensures |r| <= |s| && r == s[|s| - |r|..]
    ensures forall i :: 0 <= i < |s| - |r| ==> IsSpace(s[i])
    ensures r == [] || !IsSpace(r[0])
    decreases |s|
  {
    if s != [] && IsSpace(s[0]) then TrimLeft(s[1..]) else s
  }

  /** s.rstrip(): the longest prefix of s that does not end with whitespace. */
  function TrimRight(s: string): (r: string)
    ensures |r| <= |s| && r == s[..|r|]
    ensures forall i :: |r| <= i < |s| ==> IsSpace(s[i])
    ensures r == [] || !IsSpace(r[|r| - 1])
    decreases |s|
  {
    if s != [] && IsSpace(s[|s| - 1]) then TrimRight(s[..|s| - 1]) else s
  }

  /** s.strip(): s with the whitespace at both ends removed; what is left neither starts
      nor ends with whitespace, is empty exactly when s is all whitespace, and is s itself
      when s has no whitespace at either end. */
  function Strip(s: string): (r: string)
    ensures r == [] || (!IsSpace(r[0]) && !IsSpace(r[|r| - 1]))
    ensures r == [] <==> forall j :: 0 <= j < |s| ==> IsSpace(s[j])
    ensures s != [] && !IsSpace(s[0]) && !IsSpace(s[|s| - 1]) ==> r == s
  {
    TrimRight(TrimLeft(s))
  }

  /** s.rstrip(c) for a single character c. */
  function RStrip(s: string, c: char): (r: string)
    ensures |r| <= |s| && r == s[..|r|] && (r == [] || r[|r| - 1] != c)
    ensures forall i :: |r| <= i < |s| ==> s[i] == c
    decreases |s|
  {
    if s != [] && s[|s| - 1] == c then RStrip(s[..|s| - 1], c) else s
  }

  /** d.join(parts): the pieces in order with d between neighbours; Split undoes it
      (SplitOfJoin). */
  function Join(parts: seq<string>, d: char): string
    decreases |parts|
  {
    if parts == [] then ""
    else if |parts| == 1 then parts[0]
    else parts[0] + [d] + Join(parts[1..], d)
  }

  /** s.split(d): never empty, no piece holds d, and joining the pieces again gives s back. */
  function Split(s: string, d: char): (parts: seq<string>)
    ensures |parts| >= 1
    ensures forall k :: 0 <= k < |parts| ==> d !in parts[k]
    ensures Join(parts, d) == s
    decreases |s|
  {
    if s == [] then [""]
    else
      var rest := Split(s[1..], d);
      if s[0] == d then
        assert ([""] + rest)[1..] == rest;
        [""] + rest
      else
        var parts := [[s[0]] + rest[0]] + rest[1..];
        assert s == [s[0]] + s[1..];
        assert |rest| > 1 ==> parts[1..] == rest[1..] && Join(rest, d) == rest[0] + [d] + Join(rest[1..], d);
        parts
  }

  /** s.split() with no argument: the maximal runs of non-whitespace characters. */
  function Words(s: string): (ws: seq<string>)
    ensures forall k :: 0 <= k < |ws| ==> ws[k] != [] && forall i :: 0 <= i < |ws[k]| ==> !IsSpace(ws[k][i])
    ensures s != [] && !IsSpace(s[0]) ==> |ws| >= 1 && ws[0][0] == s[0]
    decreases |s|
  {
    if s == [] then []
    else if IsSpace(s[0]) then Words(s[1..])
    else
      var rest := Words(s[1..]);
      if |s| > 1 && !IsSpace(s[1]) then [[s[0]] + rest[0]] + rest[1..] else [[s[0]]] + rest
  }

  /** split() ignores leading whitespace. */
  lemma {:induction false} WordsSkipLeading(s: string)
    ensures Words(TrimLeft(s)) == Words(s)
    decreases |s|
  {
    if s != [] && IsSpace(s[0]) {
      WordsSkipLeading(s[1..]);
    }
  }

  /** Text made of whitespace alone has no words. */
  lemma {:induction false} WordsOfSpace(w: string)
    requires forall i :: 0 <= i < |w| ==> IsSpace(w[i])
    ensures Words(w) == []
    decreases |w|
  {
    if w != [] {
      WordsOfSpace(w[1..]);
    }
  }

  /** split() ignores trailing whitespace. */
  lemma {:induction false} WordsSkipTrailing(t: string, w: string)
    requires forall i :: 0 <= i < |w| ==> IsSpace(w[i])
    ensures Words(t + w) == Words(t)
    decreases |t|
  {
    if t == [] {
      assert t + w == w;
      WordsOfSpace(w);
    } else {
      assert (t + w)[1..] == t[1..] + w;
      WordsSkipTrailing(t[1..], w);
    }
  }

  /** s.strip().split() == s.split(). */
  lemma WordsOfStrip(s: string)
    ensures Words(Strip(s)) == Words(s)
  {
    var t := TrimLeft(s);
    var r := TrimRight(t);
    var w := t[|r|..];
    assert Words(r + w) == Words(r) by {
      WordsSkipTrailing(r, w);
    }
    assert t == r + w;
    WordsSkipLeading(s);
  }

  /** w is the run of non-whitespace characters t starts with: t begins with w, and after
      it comes whitespace or the end of t. */
  predicate StartsWithRun(t: string, w: string)
  {
    |w| <= |t| && w == t[..|w|] && (|w| == |t| || IsSpace(t[|w|]))
  }

  /** split() reads the words off one at a time: after the leading whitespace, the first
      word is the longest run of non-whitespace characters, and the other words are the
      words of what follows it. With the shape Words guarantees, this fixes the result. */
  lemma {:induction false} WordsFirstRun(s: string)
    ensures Words(s) == [] <==> TrimLeft(s) == []
    ensures Words(s) != [] ==>
              && StartsWithRun(TrimLeft(s), Words(s)[0])
              && Words(s)[1..] == Words(TrimLeft(s)[|Words(s)[0]|..])
    decreases |s|
  {
    if s != [] {
      if IsSpace(s[0]) {
        WordsFirstRun(s[1..]);
      } else {
        WordsOfRun(s);
      }
    }
  }

  /** The same, for text that starts with a non-whitespace character. */
  lemma {:induction false} WordsOfRun(s: string)
    requires s != [] && !IsSpace(s[0])
    ensures TrimLeft(s) == s && Words(s) != []
    ensures StartsWithRun(s, Words(s)[0]) && Words(s)[1..] == Words(s[|Words(s)[0]|..])
    decreases |s|
  {
    if |s| > 1 && !IsSpace(s[1]) {
      WordsOfRun(s[1..]);
      LongerRun(s, Words(s[1..]));
    } else {
      assert Words(s) == [[s[0]]] + Words(s[1..]);
    }
  }

  /** One more non-whitespace character in front of a run lengthens that first word. */
  lemma LongerRun(s: string, rest: seq<string>)
    requires |s| > 1 && !IsSpace(s[0]) && !IsSpace(s[1])
    requires rest == Words(s[1..]) && rest != []
    requires StartsWithRun(s[1..], rest[0]) && rest[1..] == Words(s[1..][|rest[0]|..])
    ensures Words(s) == [[s[0]] + rest[0]] + rest[1..]
    ensures StartsWithRun(s, Words(s)[0]) && Words(s)[1..] == Words(s[|Words(s)[0]|..])
  {
    var w := rest[0];
    assert s[1..][|w|..] == s[1 + |w|..];
    assert s[..1 + |w|] == [s[0]] + s[1..][..|w|];
  }

  lemma Regroup<T>(a: seq<T>, b: seq<T>, c: seq<T>)
    ensures a + (b + c) == (a + b) + c
  {
  }

  /** Joining pieces whose last one is a: the same join with that piece emptied, then a. */
  lemma JoinLast(init: seq<string>, a: string, d: char)
    ensures Join(init + [a], d) == Join(init + [""], d) + a
    ensures init == [] ==> Join(init + [""], d) == ""
    ensures init != [] ==> Join(init + [""], d) == Join(init, d) + [d]
  {
    if init == [] {
      assert init + [a] == [a] && init + [""] == [""];
    } else {
      JoinSnoc(init, a, d);
      JoinSnoc(init, "", d);
    }
  }

  lemma JoinCons(p: string, ps: seq<string>, d: char)
    requires ps != []
    ensures Join([p] + ps, d) == p + [d] + Join(ps, d)
  {
    assert ([p] + ps)[1..] == ps;
  }

  /** Joining one more piece adds the separator and that piece at the end. */
  lemma {:induction false} JoinSnoc(ps: seq<string>, x: string, d: char)
    requires ps != []
    ensures Join(ps + [x], d) == Join(ps, d) + [d] + x
    decreases |ps|
  {
    if |ps| == 1 {
      JoinCons(ps[0], [x], d);
    } else {
      assert ps + [x] == [ps[0]] + (ps[1..] + [x]);
      JoinCons(ps[0], ps[1..] + [x], d);
      JoinSnoc(ps[1..], x, d);
      JoinCons(ps[0], ps[1..], d);
      assert ps == [ps[0]] + ps[1..];
    }
  }

  /** Splitting text that starts with a separator-free piece a glues a onto the first piece. */
  lemma {:induction false} SplitAfter(a: string, b: string, d: char)
    requires d !in a
    ensures Split(a + b, d) == [a + Split(b, d)[0]] + Split(b, d)[1..]
    decreases |a|
  {
    if a == [] {
      assert a + b == b;
      assert a + Split(b, d)[0] == Split(b, d)[0];
      assert Split(b, d) == [Split(b, d)[0]] + Split(b, d)[1..];
    } else {
      assert (a + b)[0] == a[0];
      assert (a + b)[1..] == a[1..] + b;
      SplitAfter(a[1..], b, d);
      assert [a[0]] + (a[1..] + Split(b, d)[0]) == a + Split(b, d)[0];
    }
  }

  /** split undoes join when no piece holds the separator. */
  lemma {:induction false} SplitOfJoin(parts: seq<string>, d: char)
    requires |parts| >= 1
    requires forall k :: 0 <= k < |parts| ==> d !in parts[k]
    ensures Split(Join(parts, d), d) == parts
    decreases |parts|
  {
    if |parts| == 1 {
      SplitAfter(parts[0], "", d);
      assert parts[0] + "" == parts[0];
    } else {
      var tail := Join(parts[1..], d);
      assert Join(parts, d) == parts[0] + ([d] + tail) by {
        Regroup(parts[0], [d], tail);
      }
      assert Split([d] + tail, d) == [""] + parts[1..] by {
        SplitOfJoin(parts[1..], d);
        assert ([d] + tail)[1..] == tail;
      }
      SplitAfter(parts[0], [d] + tail, d);
      assert parts[0] + "" == parts[0];
      assert parts == [parts[0]] + parts[1..];
    }
  }

  /** Stripping a line whose text neither starts nor ends with whitespace removes only
      the whitespace after it (the line terminator). */
  lemma StripTrailing(t: string, w: string)
    requires t != [] && !IsSpace(t[0]) && !IsSpace(t[|t| - 1])
    requires forall i :: 0 <= i < |w| ==> IsSpace(w[i])
    ensures Strip(t + w) == t
  {
    var s := t + w;
    assert TrimLeft(s) == s;
    var r := TrimRight(s);
    assert !IsSpace(s[|t| - 1]);
    assert forall i :: |t| <= i < |s| ==> IsSpace(s[i]);
    assert |r| == |t|;
  }

  predicate IsDigit(c: char)
  {
    '0' <= c <= '9'
  }

  predicate AllDigits(s: string)
  {
    |s| >= 1 && forall i :: 0 <= i < |s| ==> IsDigit(s[i])
  }

  function DigitValue(c: char): nat
    requires IsDigit(c)
  {
    (c as int) - ('0' as int)
  }

  function DigitChar(k: nat): (c: char)
    requires k < 10
    ensures IsDigit(c) && DigitValue(c) == k
  {
    (('0' as int) + k) as char
  }

  /** str(n) for n >= 0: the decimal digits, most significant first, no leading zero. */
  function NatToString(n: nat): (s: string)
    ensures AllDigits(s)
    ensures |s| > 1 ==> s[0] != '0'
    decreases n
  {
    if n < 10 then [DigitChar(n)] else NatToString(n / 10) + [DigitChar(n % 10)]
  }

  /** The value of a string of decimal digits. */
  function DigitsValue(s: string): nat
    requires forall i :: 0 <= i < |s| ==> IsDigit(s[i])
    decreases |s|
  {
    if s == [] then 0 else 10 * DigitsValue(s[..|s| - 1]) + DigitValue(s[|s| - 1])
  }

  /** int(s) on an optional sign followed by decimal digits; None where Python raises ValueError. */
  function ParseInt(s: string): (r: Option<int>)
    ensures r.Some? ==> s != [] && forall i :: 0 <= i < |s| ==> !IsSpace(s[i])
    ensures AllDigits(s) ==> r == Some(DigitsValue(s))
    ensures |s| >= 1 && s[0] == '-' && AllDigits(s[1..]) ==> r == Some(-(DigitsValue(s[1..]) as int))
    ensures |s| >= 1 && s[0] == '+' && AllDigits(s[1..]) ==> r == Some(DigitsValue(s[1..]) as int)
    ensures r.Some? <==> AllDigits(s) || (|s| >= 1 && (s[0] == '-' || s[0] == '+') && AllDigits(s[1..]))
  {
    if |s| >= 1 && (s[0] == '-' || s[0] == '+') then
      if AllDigits(s[1..]) then
        var v: int := DigitsValue(s[1..]);
        Some(if s[0] == '-' then -v else v)
      else None
    else if AllDigits(s) then Some(DigitsValue(s))
    else None
  }

  /** row, col = map(int, words): exactly two words, each accepted by int(); None where
      Python raises ValueError. */
  function TwoInts(words: seq<string>): (r: Option<(int, int)>)
    ensures r.Some? <==> |words| == 2 && ParseInt(words[0]).Some? && ParseInt(words[1]).Some?
    ensures r.Some? ==> r.value.0 == ParseInt(words[0]).value && r.value.1 == ParseInt(words[1]).value
  {
    if |words| == 2 && ParseInt(words[0]).Some? && ParseInt(words[1]).Some? then
      Some((ParseInt(words[0]).value, ParseInt(words[1]).value))
    else None
  }

  lemma {:induction false} DigitsValueOfNatToString(n: nat)
    ensures DigitsValue(NatToString(n)) == n
    decreases n
  {
    if n >= 10 {
      DigitsValueOfNatToString(n / 10);
      var s := NatToString(n);
      assert s[..|s| - 1] == NatToString(n / 10);
    }
  }

  /** int(str(n)) == n for every n >= 0. */
  lemma ParseIntOfNatToString(n: nat)
    ensures ParseInt(NatToString(n)) == Some(n)
  {
    DigitsValueOfNatToString(n);
  }
}
