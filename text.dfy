/** The string operations the screens rely on, restricted to what the model needs:
    ASCII lower-casing, substring search, splitting on one separator character and the
    whitespace class of ECMAScript regular expressions. What each function computes is
    stated by its contract or by the lemmas that follow it. */
module Text {

  predicate IsAsciiUpper(c: char) { 'A' <= c <= 'Z' }

  /** Lower-cases one character; only the 26 ASCII capitals change. */
  function AsciiLower(c: char): (r: char)
    ensures !IsAsciiUpper(r)
    ensures !IsAsciiUpper(c) ==> r == c
    ensures IsAsciiUpper(c) ==> 'a' <= r <= 'z' && r as int - c as int == 32
  {
    if IsAsciiUpper(c) then (c as int + 32) as char else c
  }

  /** `toLowerCase`, ASCII only: every character lower-cased in place. */
  function Lower(s: string): (r: string)
    ensures |r| == |s|
    ensures forall i :: 0 <= i < |s| ==> r[i] == AsciiLower(s[i])
  {
    seq(|s|, i requires 0 <= i < |s| => AsciiLower(s[i]))
  }

  /** Lower-casing twice is lower-casing once. */
  lemma LowerIdempotent(s: string)
    ensures Lower(Lower(s)) == Lower(s)
  {
  }

  /** `sub` occurs in `s` starting at index `i`. */
  ghost predicate OccursAt(s: string, sub: string, i: int)
  {
    0 <= i && i + |sub| <= |s| && s[i..i + |sub|] == sub
  }

  /** `s.includes(sub)`: try every start position from the left. */
  function Includes(s: string, sub: string): bool
  {
    if |sub| > |s| then false
    else if sub <= s then true
    else Includes(s[1..], sub)
  }

  /** `Includes` is true iff `sub` occurs somewhere in `s`. */
  lemma {:induction false} IncludesIffOccurs(s: string, sub: string)
    ensures Includes(s, sub) <==> exists i :: OccursAt(s, sub, i)
  {
    if |sub| > |s| {
      assert forall i :: !OccursAt(s, sub, i);
    } else if sub <= s {
      assert OccursAt(s, sub, 0);
    } else {
      IncludesIffOccurs(s[1..], sub);
      if Includes(s[1..], sub) {
        var j :| OccursAt(s[1..], sub, j);
        OccursShift(s, sub, j + 1);
      }
      if exists i :: OccursAt(s, sub, i) {
        var i :| OccursAt(s, sub, i);
        assert i != 0 by { assert s[..|sub|] != sub; }
        OccursShift(s, sub, i);
      }
    }
  }

  /** An occurrence past the first character is an occurrence in the rest, one place earlier. */
  lemma OccursShift(s: string, sub: string, i: int)
    requires s != [] && i >= 1
    ensures OccursAt(s, sub, i) <==> OccursAt(s[1..], sub, i - 1)
  {
    if i + |sub| <= |s| {
      assert s[1..][i - 1..i - 1 + |sub|] == s[i..i + |sub|];
    }
  }

  /** The empty string occurs in every string. */
  lemma IncludesEmpty(s: string)
    ensures Includes(s, "")
  {
  }

  /** A string that lacks one of `sub`'s characters does not include `sub`. */
  lemma MissingCharNotIncluded(s: string, sub: string, c: char)
    requires c in sub && c !in s
    ensures !Includes(s, sub)
  {
    IncludesIffOccurs(s, sub);
  }

  /** Lower-casing yields a lower-case letter `c` only from `c` itself or its capital. */
  lemma LowerMissing(s: string, c: char)
    requires 'a' <= c <= 'z'
    requires c !in s && (c as int - 32) as char !in s
    ensures c !in Lower(s)
  {
  }

  /** A string lacking both cases of one of `sub`'s lower-case letters does not include
      `sub` once lower-cased. */
  lemma LowerExcludes(s: string, sub: string, c: char)
    requires 'a' <= c <= 'z' && c in sub
    requires c !in s && (c as int - 32) as char !in s
    ensures !Includes(Lower(s), sub)
  {
    LowerMissing(s, c);
    MissingCharNotIncluded(Lower(s), sub, c);
  }

  /** The number of occurrences of `c` in `s`. */
  function Count(s: string, c: char): nat
  {
    if s == [] then 0 else (if s[0] == c then 1 else 0) + Count(s[1..], c)
  }

  /** Glues pieces back together with `sep` between neighbours (`Array.prototype.join`). */
  function Join(parts: seq<string>, sep: char): string
    requires |parts| >= 1
  {
    if |parts| == 1 then parts[0] else parts[0] + [sep] + Join(parts[1..], sep)
  }

  /** `s.split(sep)` for a one-character separator. The empty string splits into one empty piece. */
  function Split(s: string, sep: char): (r: seq<string>)
    ensures |r| >= 1
  {
    if s == [] then [""]
    else
      var rest := Split(s[1..], sep);
      if s[0] == sep then [""] + rest
      else [[s[0]] + rest[0]] + rest[1..]
  }

  /** The pieces of a split: one more than there are separators, none holding the separator,
      and joined back with the separator they give the original string. */
  lemma SplitPieces(s: string, sep: char)
    ensures |Split(s, sep)| == Count(s, sep) + 1
    ensures forall k :: 0 <= k < |Split(s, sep)| ==> sep !in Split(s, sep)[k]
    ensures Join(Split(s, sep), sep) == s
  {
    SplitCount(s, sep);
    SplitSeparatorFree(s, sep);
    SplitJoinBack(s, sep);
  }

  lemma {:induction false} SplitCount(s: string, sep: char)
    ensures |Split(s, sep)| == Count(s, sep) + 1
  {
    if s != [] {
      SplitCount(s[1..], sep);
    }
  }

  lemma {:induction false} SplitSeparatorFree(s: string, sep: char)
    ensures forall k :: 0 <= k < |Split(s, sep)| ==> sep !in Split(s, sep)[k]
  {
    if s != [] {
      SplitSeparatorFree(s[1..], sep);
      var rest, r := Split(s[1..], sep), Split(s, sep);
      if s[0] == sep {
        assert forall k :: 1 <= k < |r| ==> r[k] == rest[k - 1];
      } else {
        assert forall k :: 1 <= k < |r| ==> r[k] == rest[k];
      }
    }
  }

  lemma {:induction false} SplitJoinBack(s: string, sep: char)
    ensures Join(Split(s, sep), sep) == s
  {
    if s != [] {
      SplitJoinBack(s[1..], sep);
      var rest := Split(s[1..], sep);
      if s[0] == sep {
        JoinAfterEmpty(rest, sep);
      } else {
        JoinExtendFirst(s[0], rest, sep);
      }
      assert s == [s[0]] + s[1..];
    }
  }

  /** A leading empty piece contributes just one separator. */
  lemma JoinAfterEmpty(parts: seq<string>, sep: char)
    requires |parts| >= 1
    ensures Join([""] + parts, sep) == [sep] + Join(parts, sep)
  {
    assert ([""] + parts)[1..] == parts;
  }

  /** Putting a character in front of the first piece puts it in front of the joined text. */
  lemma JoinExtendFirst(c: char, parts: seq<string>, sep: char)
    requires |parts| >= 1
    ensures Join([[c] + parts[0]] + parts[1..], sep) == [c] + Join(parts, sep)
  {
    var q := [[c] + parts[0]] + parts[1..];
    if |parts| > 1 {
      assert q[1..] == parts[1..];
      assert Join(q, sep) == ([c] + parts[0]) + ([sep] + Join(parts[1..], sep));
    }
  }

  /** Splitting undoes joining: pieces free of the separator come back unchanged. */
  lemma {:induction false} SplitJoin(parts: seq<string>, sep: char)
    requires |parts| >= 1
    requires forall k :: 0 <= k < |parts| ==> sep !in parts[k]
    ensures Split(Join(parts, sep), sep) == parts
  {
    if |parts| == 1 {
      SplitNoSeparator(parts[0], sep);
    } else {
      SplitJoin(parts[1..], sep);
      SplitPrefix(parts[0], Join(parts[1..], sep), sep);
      assert [parts[0]] + parts[1..] == parts;
    }
  }

  /** A string without the separator splits into itself alone. */
  lemma {:induction false} SplitNoSeparator(s: string, sep: char)
    requires sep !in s
    ensures Split(s, sep) == [s]
  {
    if s != [] {
      assert sep !in s[1..] by { assert forall x :: x in s[1..] ==> x in s; }
      SplitNoSeparator(s[1..], sep);
      assert [s[0]] + s[1..] == s;
    }
  }

  /** Splitting `w + [sep] + t` for a separator-free `w` gives `w` followed by the pieces of `t`. */
  lemma {:induction false} SplitPrefix(w: string, t: string, sep: char)
    requires sep !in w
    ensures Split(w + [sep] + t, sep) == [w] + Split(t, sep)
  {
    var s := w + [sep] + t;
    if w == [] {
      assert s[1..] == t;
    } else {
      assert sep !in w[1..] by { assert forall x :: x in w[1..] ==> x in w; }
      SplitPrefix(w[1..], t, sep);
      assert s[1..] == w[1..] + [sep] + t;
      assert [w[0]] + w[1..] == w;
    }
  }

  /** The characters matched by `\s` in an ECMAScript regular expression: the WhiteSpace and
      LineTerminator code points (section 22.2.2.9 of ECMA-262). */
  predicate IsJsSpace(c: char)
  {
    c == '\t' || c == '\n' || c == '\U{000B}' || c == '\U{000C}' || c == '\r' || c == ' '
    || c == '\U{00A0}' || c == '\U{1680}' || ('\U{2000}' <= c <= '\U{200A}')
    || c == '\U{2028}' || c == '\U{2029}' || c == '\U{202F}' || c == '\U{205F}'
    || c == '\U{3000}' || c == '\U{FEFF}'
  }

  /** Drops the run of leading whitespace, as `^\s*` consumes it. */
  function TrimStartSpaces(s: string): string
  {
    if s != [] && IsJsSpace(s[0]) then TrimStartSpaces(s[1..]) else s
  }

  /** The trimmed string is a suffix of `s`, everything dropped is whitespace, and the result
      does not start with whitespace: the longest whitespace run is the one removed. */
  lemma {:induction false} TrimStartSpacesSuffix(s: string)
    ensures |TrimStartSpaces(s)| <= |s|
    ensures TrimStartSpaces(s) == s[|s| - |TrimStartSpaces(s)|..]
    ensures forall i :: 0 <= i < |s| - |TrimStartSpaces(s)| ==> IsJsSpace(s[i])
    ensures TrimStartSpaces(s) != [] ==> !IsJsSpace(TrimStartSpaces(s)[0])
  {
    if s != [] && IsJsSpace(s[0]) {
      var u := s[1..];
      var t := TrimStartSpaces(u);
      TrimStartSpacesSuffix(u);
      assert TrimStartSpaces(s) == t;
      var k := |s| - |t|;
      assert forall i :: 1 <= i < k ==> s[i] == u[i - 1];
      assert u[|u| - |t|..] == s[k..];
    }
  }

  /** Conversely, whitespace followed by text that does not start with whitespace trims to
      exactly that text. */
  lemma {:induction false} TrimStartSpacesOf(spaces: string, rest: string)
    requires forall i :: 0 <= i < |spaces| ==> IsJsSpace(spaces[i])
    requires rest == [] || !IsJsSpace(rest[0])
    ensures TrimStartSpaces(spaces + rest) == rest
  {
    if spaces != [] {
      TrimStartSpacesOf(spaces[1..], rest);
      assert (spaces + rest)[1..] == spaces[1..] + rest;
    } else {
      assert spaces + rest == rest;
    }
  }
}
