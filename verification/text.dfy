/** The JavaScript string operations the sync engine relies on: `trim`,
    `toLowerCase`, `split(' ')`, `join(' ')`, truthiness, and the decimal
    rendering of an id used in `'local-' + id`. */
module Text {
  import opened Common

  /** The white space `trim` removes, as far as the model goes: the ASCII
      white space characters (tab, line feed, vertical tab, form feed,
      carriage return, space), no-break space, byte order mark and the line
      and paragraph separators. `String.prototype.trim` also removes the
      other Unicode space separators (U+1680, U+2000 to U+200A, U+202F,
      U+205F, U+3000), which this set leaves out. */
  predicate IsSpace(c: char) {
    c in Spaces
  }

  const Spaces: set<char> :=
    {' ', '\t', '\n', '\r', '\U{B}', '\U{C}', '\U{A0}', '\U{FEFF}', '\U{2028}', '\U{2029}'}

  /** A string is truthy in JavaScript exactly when it is not empty. */
  predicate Truthy(s: string) {
    |s| > 0
  }

  /** `value` is present and truthy (`if (x)` on a possibly undefined string). */
  predicate Present(o: Option<string>) {
    o.Some? && Truthy(o.value)
  }

  /** `x || ''` on a possibly undefined string. */
  function OrEmpty(o: Option<string>): (r: string)
    ensures Present(o) ==> r == o.value
    ensures !Present(o) ==> r == ""
  {
    if Present(o) then o.value else ""
  }

  /** `s.trimStart()`: the suffix of `s` after its leading white space. */
  function TrimStart(s: string): string {
    if s != [] && IsSpace(s[0]) then TrimStart(s[1..]) else s
  }

  /** `s.trimEnd()`: the prefix of `s` before its trailing white space. */
  function TrimEnd(s: string): string {
    if s != [] && IsSpace(s[|s| - 1]) then TrimEnd(s[..|s| - 1]) else s
  }

  /** `s.trim()`. */
  function Trim(s: string): string {
    TrimEnd(TrimStart(s))
  }

  /** `toLowerCase` on one character, for the ASCII letters only: the model
      leaves every other character as it is. */
  function LowerChar(c: char): (d: char)
    ensures IsSpace(d) <==> IsSpace(c)
    ensures 'A' <= d <= 'Z' ==> false
  {
    if 'A' <= c <= 'Z' then (c as int + 32) as char else c
  }

  /** `s.toLowerCase()` (ASCII letters only). */
  function ToLower(s: string): (r: string)
    ensures |r| == |s|
    ensures forall i :: 0 <= i < |s| ==> r[i] == LowerChar(s[i])
  {
    seq(|s|, i requires 0 <= i < |s| => LowerChar(s[i]))
  }

  /** `s.split(' ')`. */
  function SplitSpace(s: string): (parts: seq<string>)
    ensures |parts| >= 1
  {
    if |s| == 0 then [""]
    else
      var rest := SplitSpace(s[1..]);
      if s[0] == ' ' then [""] + rest else [[s[0]] + rest[0]] + rest[1..]
  }

  /** `parts.join(' ')`. */
  function JoinSpace(parts: seq<string>): string {
    if |parts| == 0 then ""
    else if |parts| == 1 then parts[0]
    else parts[0] + " " + JoinSpace(parts[1..])
  }

  /** Decimal rendering of a natural number (the string form of an id). */
  function NatText(n: nat): (r: string)
    ensures |r| >= 1
    ensures forall i :: 0 <= i < |r| ==> '0' <= r[i] <= '9'
  {
    if n < 10 then [('0' as int + n) as char]
    else NatText(n / 10) + [('0' as int + n % 10) as char]
  }

  /** `s` has no white space at either end (what `trim` leaves). */
  predicate IsTrimmed(s: string) {
    s == [] || (!IsSpace(s[0]) && !IsSpace(s[|s| - 1]))
  }

  /** The character at `i` is an upper-case ASCII letter. */
  predicate UpperAt(s: string, i: nat)
    requires i < |s|
  {
    'A' <= s[i] <= 'Z'
  }

  /** `s` has no upper-case ASCII letter (what `toLowerCase` leaves). */
  predicate IsLower(s: string) {
    forall i :: 0 <= i < |s| ==> !UpperAt(s, i)
  }

  // ---------------------------------------------------------------------
  // Properties of trimming and lower-casing

  /** `trimStart` removes a prefix made only of white space and stops at the
      first other character. */
  lemma {:induction false} TrimStartSpec(s: string)
    ensures var r := TrimStart(s);
            && |r| <= |s| && r == s[|s| - |r|..]
            && (r == [] || !IsSpace(r[0]))
            && (forall i :: 0 <= i < |s| - |r| ==> IsSpace(s[i]))
    decreases |s|
  {
    if s != [] && IsSpace(s[0]) {
      TrimStartSpec(s[1..]);
    }
  }

  /** `trimEnd` removes a suffix made only of white space and stops at the
      last other character. */
  lemma {:induction false} TrimEndSpec(s: string)
    ensures var r := TrimEnd(s);
            && |r| <= |s| && r == s[..|r|]
            && (r == [] || !IsSpace(r[|r| - 1]))
            && (forall i :: |r| <= i < |s| ==> IsSpace(s[i]))
    decreases |s|
  {
    if s != [] && IsSpace(s[|s| - 1]) {
      TrimEndSpec(s[..|s| - 1]);
    }
  }

  lemma TrimStartNoop(s: string)
    requires s == [] || !IsSpace(s[0])
    ensures TrimStart(s) == s
  {
  }

  lemma TrimEndNoop(s: string)
    requires s == [] || !IsSpace(s[|s| - 1])
    ensures TrimEnd(s) == s
  {
  }

  /** The result of `trim` has no white space at either end. */
  lemma TrimmedEnds(s: string)
    ensures IsTrimmed(Trim(s))
  {
    var u := TrimStart(s);
    var t := TrimEnd(u);
    TrimStartSpec(s);
    TrimEndSpec(u);
    if t != [] {
      assert t[0] == u[0];
    }
  }

  /** Trimming twice is trimming once. */
  lemma {:induction false} TrimIdempotent(s: string)
    ensures Trim(Trim(s)) == Trim(s)
  {
    var t := Trim(s);
    TrimmedEnds(s);
    TrimStartNoop(t);
    TrimEndNoop(t);
  }

  /** A string is left alone by `trim` exactly when it has no white space at
      either end. */
  lemma TrimmedIff(s: string)
    ensures Trim(s) == s <==> IsTrimmed(s)
  {
    TrimmedEnds(s);
    if IsTrimmed(s) {
      TrimStartNoop(s);
      TrimEndNoop(s);
    }
  }

  /** A string is left alone by `toLowerCase` exactly when it has no
      upper-case letter. */
  lemma LowerIff(s: string)
    ensures ToLower(s) == s <==> IsLower(s)
  {
    if ToLower(s) == s {
      forall i | 0 <= i < |s| ensures !UpperAt(s, i) {
        assert LowerChar(s[i]) == s[i];
      }
    } else if IsLower(s) {
      forall i | 0 <= i < |s| ensures ToLower(s)[i] == s[i] {
        assert !UpperAt(s, i);
      }
    }
  }

  /** The normal form of an e-mail is trimmed and lower-case. */
  lemma LowerTrimShape(s: string)
    ensures IsTrimmed(ToLower(Trim(s))) && IsLower(ToLower(Trim(s)))
  {
    LowerTrimNormal(s);
    TrimLowerCommute(ToLower(Trim(s)));
    ToLowerIdempotent(Trim(s));
    TrimIdempotent(s);
    TrimmedIff(ToLower(Trim(s)));
    LowerIff(ToLower(Trim(s)));
  }

  /** Lower-casing twice is lower-casing once. */
  lemma ToLowerIdempotent(s: string)
    ensures ToLower(ToLower(s)) == ToLower(s)
  {
  }

  lemma {:induction false} TrimStartLower(s: string)
    ensures TrimStart(ToLower(s)) == ToLower(TrimStart(s))
    decreases |s|
  {
    if s != [] && IsSpace(s[0]) {
      assert ToLower(s)[1..] == ToLower(s[1..]);
      TrimStartLower(s[1..]);
    }
  }

  lemma {:induction false} TrimEndLower(s: string)
    ensures TrimEnd(ToLower(s)) == ToLower(TrimEnd(s))
    decreases |s|
  {
    if s != [] && IsSpace(s[|s| - 1]) {
      assert ToLower(s)[..|s| - 1] == ToLower(s[..|s| - 1]);
      TrimEndLower(s[..|s| - 1]);
    }
  }

  /** `trim` and `toLowerCase` commute, so the order of the two schema setters
      on an e-mail does not matter. */
  lemma TrimLowerCommute(s: string)
    ensures Trim(ToLower(s)) == ToLower(Trim(s))
  {
    TrimStartLower(s);
    TrimEndLower(TrimStart(s));
  }

  /** The normal form `toLowerCase(trim(s))` is a fixed point of both setters. */
  lemma LowerTrimNormal(s: string)
    ensures var e := ToLower(Trim(s)); ToLower(Trim(e)) == e
  {
    var t := Trim(s);
    TrimLowerCommute(t);
    TrimIdempotent(s);
    ToLowerIdempotent(t);
  }

  /** Lower-casing before the e-mail setters changes nothing: the key a
      lookup on `email.toLowerCase()` is cast to is the stored normal form. */
  lemma LowerThenNormal(s: string)
    ensures ToLower(Trim(ToLower(s))) == ToLower(Trim(s))
  {
    TrimLowerCommute(s);
    ToLowerIdempotent(Trim(s));
  }

  // ---------------------------------------------------------------------
  // Properties of split / join

  /** `s.split(' ').join(' ') === s`. */
  lemma {:induction false} JoinSplit(s: string)
    ensures JoinSpace(SplitSpace(s)) == s
    decreases |s|
  {
    if |s| > 0 {
      var rest := SplitSpace(s[1..]);
      JoinSplit(s[1..]);
      if s[0] == ' ' {
        assert ([""] + rest)[1..] == rest;
      } else {
        var parts := [[s[0]] + rest[0]] + rest[1..];
        if |rest| == 1 {
          assert JoinSpace(parts) == [s[0]] + rest[0];
        } else {
          assert parts[1..] == rest[1..];
          assert JoinSpace(parts) == [s[0]] + rest[0] + " " + JoinSpace(rest[1..]);
        }
        assert s == [s[0]] + s[1..];
      }
    }
  }

  /** The first part of a split contains no space; a single part means the
      string itself contains no space. */
  lemma {:induction false} SplitShape(s: string)
    ensures ' ' !in SplitSpace(s)[0]
    ensures |SplitSpace(s)| == 1 <==> ' ' !in s
    decreases |s|
  {
    if |s| > 0 {
      SplitShape(s[1..]);
      assert s == [s[0]] + s[1..];
    }
  }

  /** Appending white space does not change the trimmed string. */
  lemma {:induction false} TrimStartAppendSpace(s: string)
    ensures TrimStart(s + " ") == (if TrimStart(s) == [] then [] else TrimStart(s) + " ")
    decreases |s|
  {
    if s != [] && IsSpace(s[0]) {
      assert (s + " ")[1..] == s[1..] + " ";
      TrimStartAppendSpace(s[1..]);
    } else if s == [] {
      assert TrimStart(" ") == TrimStart(""[..]);
    }
  }

  lemma TrimAppendSpace(s: string)
    ensures Trim(s + " ") == Trim(s)
  {
    TrimStartAppendSpace(s);
    var u := TrimStart(s);
    if u != [] {
      var v := u + " ";
      assert IsSpace(v[|v| - 1]);
      assert v[..|v| - 1] == u;
      assert TrimEnd(v) == TrimEnd(u);
    }
  }
}
