/** String helpers with the semantics of the Python `str` methods the
    pipeline calls: `isspace`/`strip`, `lower`, `join`, `split`, `in`,
    `str.format` restricted to a `{content}` field, `rsplit`-style last
    segments, `posixpath.join` and `str(int)`. */
module Text {
  import opened Outcomes

  /** The characters for which Python's `str.isspace()` is true. */
  predicate IsSpace(c: char)
  {
    var n := c as int;
    n == 32 || 9 <= n <= 13 || 28 <= n <= 31 || n == 0x85 || n == 0xA0 ||
    n == 0x1680 || 0x2000 <= n <= 0x200A || n == 0x2028 || n == 0x2029 ||
    n == 0x202F || n == 0x205F || n == 0x3000
  }

  /** `s.strip() == ""`: every character is white space. */
  predicate IsBlank(s: string)
  {
    forall i :: 0 <= i < |s| ==> IsSpace(s[i])
  }

  /** `s.lstrip()`: drops the leading white space. */
  function TrimLeft(s: string): string
  {
    if s != [] && IsSpace(s[0]) then TrimLeft(s[1..]) else s
  }

  /** What `lstrip` keeps is a suffix of `s` that does not start with white
      space, and what it drops is all white space. */
  lemma {:induction false} TrimLeftSuffix(s: string)
    ensures |TrimLeft(s)| <= |s| && TrimLeft(s) == s[|s| - |TrimLeft(s)|..]
    ensures forall i :: 0 <= i < |s| - |TrimLeft(s)| ==> IsSpace(s[i])
    ensures TrimLeft(s) != [] ==> !IsSpace(TrimLeft(s)[0])
  {
    if s != [] && IsSpace(s[0]) {
      var tail := s[1..];
      var r := TrimLeft(tail);
      assert TrimLeft(s) == r;
      TrimLeftSuffix(tail);
      assert r == s[|s| - |r|..] by {
        assert tail[|tail| - |r|..] == s[|s| - |r|..];
      }
      forall i | 0 <= i < |s| - |r|
        ensures IsSpace(s[i])
      {
        if i > 0 {
          assert s[i] == tail[i - 1];
        }
      }
    }
  }

  /** `s.rstrip()`: drops the trailing white space. */
  function TrimRight(s: string): string
  {
    if s != [] && IsSpace(s[|s| - 1]) then TrimRight(s[..|s| - 1]) else s
  }

  /** What `rstrip` keeps is a prefix of `s` that does not end with white
      space, and what it drops is all white space. */
  lemma {:induction false} TrimRightPrefix(s: string)
    ensures |TrimRight(s)| <= |s| && TrimRight(s) == s[..|TrimRight(s)|]
    ensures forall i :: |TrimRight(s)| <= i < |s| ==> IsSpace(s[i])
    ensures TrimRight(s) != [] ==> !IsSpace(TrimRight(s)[|TrimRight(s)| - 1])
  {
    if s != [] && IsSpace(s[|s| - 1]) {
      var init := s[..|s| - 1];
      var r := TrimRight(init);
      assert TrimRight(s) == r;
      TrimRightPrefix(init);
      assert r == s[..|r|] by {
        assert init[..|r|] == s[..|r|];
      }
      forall i | |r| <= i < |s|
        ensures IsSpace(s[i])
      {
        if i < |s| - 1 {
          assert s[i] == init[i];
        }
      }
    }
  }

  /** `s.strip()`. */
  function Strip(s: string): string
  {
    TrimRight(TrimLeft(s))
  }

  /** `s.strip()` is empty exactly when `s` is blank, so `if s.strip():` is `!IsBlank(s)`. */
  lemma StripEmptyIffBlank(s: string)
    ensures Strip(s) == [] <==> IsBlank(s)
  {
    var l := TrimLeft(s);
    var r := Strip(s);
    TrimLeftSuffix(s);
    TrimRightPrefix(l);
    assert r != [] ==> r[0] == l[0] && l[0] == s[|s| - |l|];
  }

  function LowerChar(c: char): char
  {
    if 'A' <= c <= 'Z' then (c as int + 32) as char else c
  }

  /** `s.lower()`, on ASCII letters. */
  function Lower(s: string): (r: string)
    ensures |r| == |s|
    ensures forall i :: 0 <= i < |s| ==> r[i] == LowerChar(s[i])
  {
    seq(|s|, i requires 0 <= i < |s| => LowerChar(s[i]))
  }

  /** A lower-cased string has no upper-case ASCII letter, so lowering twice changes nothing. */
  lemma LowerIdempotent(s: string)
    ensures Lower(Lower(s)) == Lower(s)
    ensures forall i :: 0 <= i < |s| ==> !('A' <= Lower(s)[i] <= 'Z')
  {
  }

  /** No element occurs twice. */
  predicate Distinct(s: seq<string>)
  {
    forall i, j :: 0 <= i < j < |s| ==> s[i] != s[j]
  }

  /** `sep.join(parts)`. */
  function Join(sep: string, parts: seq<string>): string
  {
    if |parts| == 0 then ""
    else if |parts| == 1 then parts[0]
    else parts[0] + sep + Join(sep, parts[1..])
  }

  /** Appending one more part adds the separator and that part at the end. */
  lemma {:induction false} JoinSnoc(sep: string, parts: seq<string>, p: string)
    requires parts != []
    ensures Join(sep, parts + [p]) == Join(sep, parts) + sep + p
  {
    if |parts| == 1 {
      assert parts + [p] == [parts[0], p];
    } else {
      assert (parts + [p])[1..] == parts[1..] + [p];
      JoinSnoc(sep, parts[1..], p);
    }
  }

  lemma JoinSingle(sep: string, p: string)
    ensures Join(sep, [p]) == p
  {
  }

  /** Number of occurrences of `c` in `s`. */
  function Count(s: string, c: char): nat
  {
    if s == [] then 0 else (if s[0] == c then 1 else 0) + Count(s[1..], c)
  }

  /** `s.split(c)` for a one-character separator: the pieces between the
      separators, empty pieces included. */
  function Split(s: string, c: char): (r: seq<string>)
    ensures |r| >= 1
  {
    if s == [] then [""]
    else
      var rest := Split(s[1..], c);
      if s[0] == c then [""] + rest else [[s[0]] + rest[0]] + rest[1..]
  }

  /** `s.split(c)` yields one more piece than there are separators. */
  lemma {:induction false} SplitCount(s: string, c: char)
    ensures |Split(s, c)| == Count(s, c) + 1
  {
    if s != [] {
      SplitCount(s[1..], c);
    }
  }

  /** No piece of `s.split(c)` holds a `c`. */
  lemma {:induction false} SplitPiecesFree(s: string, c: char)
    ensures forall piece :: piece in Split(s, c) ==> c !in piece
  {
    if s != [] {
      var rest := Split(s[1..], c);
      SplitPiecesFree(s[1..], c);
      if s[0] != c {
        var r := Split(s, c);
        assert r == [[s[0]] + rest[0]] + rest[1..];
        assert rest[0] in rest;
        forall piece | piece in r ensures c !in piece {
          if piece != r[0] {
            assert piece in rest[1..];
          }
        }
      }
    }
  }

  /** Joining the pieces of `s.split(c)` back with `c` gives `s`. */
  lemma {:induction false} SplitJoinBack(s: string, c: char)
    ensures Join([c], Split(s, c)) == s
  {
    if s != [] {
      var rest := Split(s[1..], c);
      SplitJoinBack(s[1..], c);
      if s[0] == c {
        assert Split(s, c) == [""] + rest;
        assert ([""] + rest)[1..] == rest;
      } else {
        var r := Split(s, c);
        assert r == [[s[0]] + rest[0]] + rest[1..];
        if |rest| == 1 {
          assert r == [[s[0]] + rest[0]];
        } else {
          assert r[1..] == rest[1..];
          assert Join([c], rest) == rest[0] + [c] + Join([c], rest[1..]);
        }
      }
    }
  }

  /** `s.split(c)` yields one more piece than there are separators, no piece
      holds a separator, and joining the pieces back with `c` gives `s`. */
  lemma SplitJoin(s: string, c: char)
    ensures |Split(s, c)| == Count(s, c) + 1
    ensures forall piece :: piece in Split(s, c) ==> c !in piece
    ensures Join([c], Split(s, c)) == s
  {
    SplitCount(s, c);
    SplitPiecesFree(s, c);
    SplitJoinBack(s, c);
  }

  /** `sub` occurs in `s` starting at index `i`. */
  predicate OccursAt(s: string, sub: string, i: int)
  {
    0 <= i <= |s| - |sub| && s[i..i + |sub|] == sub
  }

  /** `sub in s`. */
  predicate Contains(s: string, sub: string)
  {
    exists i | 0 <= i <= |s| - |sub| :: OccursAt(s, sub, i)
  }

  /** `s.startswith(p)`. */
  predicate StartsWith(s: string, p: string)
  {
    |p| <= |s| && s[..|p|] == p
  }

  /** An occurrence at a known position makes `sub in s` true. */
  lemma ContainsAt(s: string, sub: string, i: nat)
    requires i + |sub| <= |s| && s[i..i + |sub|] == sub
    ensures Contains(s, sub)
  {
    assert OccursAt(s, sub, i);
  }

  /** `p + sub + q` contains `sub`. */
  lemma ContainsMiddle(p: string, sub: string, q: string)
    ensures Contains(p + sub + q, sub)
  {
    var s := p + sub + q;
    assert OccursAt(s, sub, |p|);
  }

  /** Whatever `s` contains, `p + s + q` contains too. */
  lemma ContainsWithin(p: string, s: string, q: string, sub: string)
    requires Contains(s, sub)
    ensures Contains(p + s + q, sub)
  {
    var i :| 0 <= i <= |s| - |sub| && OccursAt(s, sub, i);
    assert (p + s + q)[|p| + i..|p| + i + |sub|] == s[i..i + |sub|];
    assert OccursAt(p + s + q, sub, |p| + i);
  }

  /** `sep.join(parts)` contains every one of the parts. */
  lemma {:induction false} JoinHasPart(sep: string, parts: seq<string>, k: nat)
    requires k < |parts|
    ensures Contains(Join(sep, parts), parts[k])
  {
    if |parts| == 1 {
      ContainsMiddle("", parts[0], "");
      assert "" + parts[0] + "" == parts[0];
    } else if k == 0 {
      ContainsMiddle("", parts[0], sep + Join(sep, parts[1..]));
      assert "" + parts[0] + (sep + Join(sep, parts[1..])) == Join(sep, parts);
    } else {
      JoinHasPart(sep, parts[1..], k - 1);
      ContainsWithin(parts[0] + sep, Join(sep, parts[1..]), "", parts[k]);
      assert parts[0] + sep + Join(sep, parts[1..]) + "" == Join(sep, parts);
    }
  }

  /** A string with no `c` character does not contain any string holding `c`. */
  lemma NotContainsWithout(s: string, sub: string, c: char, k: nat)
    requires k < |sub| && sub[k] == c && c !in s
    ensures !Contains(s, sub)
  {
    forall i | 0 <= i <= |s| - |sub| ensures !OccursAt(s, sub, i) {
      assert s[i + k] in s;
      assert s[i..i + |sub|][k] == s[i + k];
    }
  }

  /** The replacement field that prompt templates use. */
  const Placeholder: string := "{content}"

  predicate NoBraces(s: string)
  {
    '{' !in s && '}' !in s
  }

  /** `template.format(content=c)`: `{{` and `}}` are literal braces, the field
      `{content}` is replaced by `c`, and any other use of a brace raises. */
  function Format(t: string, c: string): (r: Result<string>)
    decreases |t|
  {
    if t == [] then Ok("")
    else if t[0] == '{' then
      if |t| >= 2 && t[1] == '{' then
        var rest :- Format(t[2..], c); Ok("{" + rest)
      else if StartsWith(t, Placeholder) then
        var rest :- Format(t[|Placeholder|..], c); Ok(c + rest)
      else Err(KeyError("replacement field other than {content}"))
    else if t[0] == '}' then
      if |t| >= 2 && t[1] == '}' then
        var rest :- Format(t[2..], c); Ok("}" + rest)
      else Err(ValueError("Single '}' encountered in format string"))
    else
      var rest :- Format(t[1..], c); Ok([t[0]] + rest)
  }

  /** A character other than a brace is copied through. */
  lemma FormatCons(ch: char, t: string, c: string)
    requires ch != '{' && ch != '}'
    ensures Format([ch] + t, c) == if Format(t, c).Ok? then Ok([ch] + Format(t, c).value) else Format(t, c)
  {
    assert ([ch] + t)[1..] == t;
  }

  /** A `{content}` field at the front is replaced by the content. */
  lemma FormatField(t: string, c: string)
    ensures Format(Placeholder + t, c) == if Format(t, c).Ok? then Ok(c + Format(t, c).value) else Format(t, c)
  {
    var s := Placeholder + t;
    assert s[0] == '{' && s[1] == 'c';
    assert StartsWith(s, Placeholder);
    assert s[|Placeholder|..] == t;
  }

  /** Text without braces formats to itself. */
  lemma {:induction false} FormatPlain(t: string, c: string)
    requires NoBraces(t)
    ensures Format(t, c) == Ok(t)
  {
    if t != [] {
      assert t[0] in t;
      assert NoBraces(t[1..]) by {
        assert forall x :: x in t[1..] ==> x in t;
      }
      FormatPlain(t[1..], c);
      FormatCons(t[0], t[1..], c);
      assert [t[0]] + t[1..] == t;
    }
  }

  /** A template made of brace-free text around one `{content}` field formats
      to that text with the content in the field's place. */
  lemma {:induction false} FormatOneField(p: string, q: string, c: string)
    requires NoBraces(p) && NoBraces(q)
    ensures Format(p + Placeholder + q, c) == Ok(p + c + q)
  {
    FormatPlain(q, c);
    FormatField(q, c);
    FormatPrefix(p, Placeholder + q, c);
    assert p + Placeholder + q == p + (Placeholder + q);
    assert p + c + q == p + (c + q);
  }

  /** Brace-free text in front of a template is copied through. */
  lemma {:induction false} FormatPrefix(p: string, t: string, c: string)
    requires NoBraces(p)
    ensures Format(p + t, c) == if Format(t, c).Ok? then Ok(p + Format(t, c).value) else Format(t, c)
  {
    if p != [] {
      assert p[0] in p;
      assert NoBraces(p[1..]) by {
        assert forall x :: x in p[1..] ==> x in p;
      }
      FormatPrefix(p[1..], t, c);
      FormatCons(p[0], p[1..] + t, c);
      assert [p[0]] + (p[1..] + t) == p + t;
      if Format(t, c).Ok? {
        assert [p[0]] + (p[1..] + Format(t, c).value) == p + Format(t, c).value;
      }
    } else {
      assert p + t == t;
      if Format(t, c).Ok? {
        assert p + Format(t, c).value == Format(t, c).value;
      }
    }
  }

  /** The text after the last `c`, or all of `s` when it has no `c`: Python's
      `s.split(c)[-1]` and, for `c == '/'`, `os.path.basename(s)`. */
  function AfterLast(s: string, c: char): string
  {
    if s == [] then []
    else if s[|s| - 1] == c then []
    else AfterLast(s[..|s| - 1], c) + [s[|s| - 1]]
  }

  /** The last segment is the longest suffix without `c`: it is preceded by
      a `c` whenever it is not the whole string. */
  lemma {:induction false} AfterLastSegment(s: string, c: char)
    ensures |AfterLast(s, c)| <= |s| && AfterLast(s, c) == s[|s| - |AfterLast(s, c)|..]
    ensures c !in AfterLast(s, c)
    ensures |AfterLast(s, c)| < |s| ==> s[|s| - |AfterLast(s, c)| - 1] == c
  {
    if s != [] && s[|s| - 1] != c {
      var t, x := s[..|s| - 1], s[|s| - 1];
      var r := AfterLast(t, c);
      AfterLastSegment(t, c);
      assert AfterLast(s, c) == r + [x];
      SuffixSnoc(t, r, x);
      assert s == t + [x];
      assert forall y :: y in r + [x] ==> y in r || y == x;
      if |r| + 1 < |s| {
        assert s[|s| - |r| - 2] == t[|t| - |r| - 1];
      }
    }
  }

  /** A suffix of `t` followed by `x` is a suffix of `t + [x]`. */
  lemma SuffixSnoc(t: string, r: string, x: char)
    requires |r| <= |t| && r == t[|t| - |r|..]
    ensures r + [x] == (t + [x])[|t| - |r|..]
  {
    assert (t + [x])[|t| - |r|..] == t[|t| - |r|..] + [x];
  }

  /** Without a `c` the last segment is the whole string. */
  lemma {:induction false} AfterLastNone(s: string, c: char)
    requires c !in s
    ensures AfterLast(s, c) == s
  {
    if s != [] {
      assert s[|s| - 1] in s;
      assert forall x :: x in s[..|s| - 1] ==> x in s;
      AfterLastNone(s[..|s| - 1], c);
      assert s[..|s| - 1] + [s[|s| - 1]] == s;
    }
  }

  /** `p + [c] + q` with `c` absent from `q` has `q` as last segment. */
  lemma {:induction false} AfterLastSuffix(p: string, c: char, q: string)
    requires c !in q
    ensures AfterLast(p + [c] + q, c) == q
  {
    var s := p + [c] + q;
    if q != [] {
      var q' := q[..|q| - 1];
      assert q[|q| - 1] in q;
      assert forall x :: x in q' ==> x in q;
      assert s[..|s| - 1] == p + [c] + q';
      AfterLastSuffix(p, c, q');
      assert q' + [q[|q| - 1]] == q;
    }
  }

  /** One more character: a `c` empties the last segment, anything else extends it. */
  lemma AfterLastSnoc(s: string, x: char, c: char)
    ensures AfterLast(s + [x], c) == if x == c then [] else AfterLast(s, c) + [x]
  {
    assert (s + [x])[..|s|] == s;
  }

  /** Whatever precedes the last `c`, the last segment of `p + [c] + q` is
      that of `q`. */

  lemma {:induction false} AfterLastAppend(p: string, c: char, q: string)
    ensures AfterLast(p + [c] + q, c) == AfterLast(q, c)
  {
    if q == [] {
      AfterLastSnoc(p, c, c);
    } else {
      var q', x := q[..|q| - 1], q[|q| - 1];
      assert q' + [x] == q;
      assert (p + [c] + q') + [x] == p + [c] + q;
      AfterLastAppend(p, c, q');
      AfterLastSnoc(p + [c] + q', x, c);
      AfterLastSnoc(q', x, c);
    }
  }

  /** `s.partition(c)` when `c` occurs: the text before the first `c` and the
      text after it. */
  function SplitAtFirst(s: string, c: char): (r: Option<(string, string)>)
    ensures r.None? <==> c !in s
    ensures r.Some? ==> s == r.value.0 + [c] + r.value.1 && c !in r.value.0
  {
    if s == [] then None
    else if s[0] == c then Some(([], s[1..]))
    else
      match SplitAtFirst(s[1..], c)
      case None => None
      case Some(parts) => Some(([s[0]] + parts.0, parts.1))
  }

  /** Splitting at the first `c` undoes `a + [c] + b` when `a` has no `c`. */
  lemma {:induction false} SplitAtFirstConcat(a: string, c: char, b: string)
    requires c !in a
    ensures SplitAtFirst(a + [c] + b, c) == Some((a, b))
  {
    var s := a + [c] + b;
    if a == [] {
      assert s[1..] == b;
    } else {
      assert s[0] == a[0] && s[1..] == a[1..] + [c] + b;
      SplitAtFirstConcat(a[1..], c, b);
      assert [a[0]] + a[1..] == a;
    }
  }

  /** `posixpath.join(a, b)`: an absolute `b` replaces `a`; otherwise `b` is
      appended after a `/` unless `a` is empty or already ends with one. */
  function PathJoin(a: string, b: string): (r: string)
    ensures |b| <= |r| && r[|r| - |b|..] == b
    ensures b != [] && b[0] == '/' ==> r == b
    ensures (b == [] || b[0] != '/') ==> StartsWith(r, a)
  {
    if b != [] && b[0] == '/' then b
    else if a == [] || a[|a| - 1] == '/' then a + b
    else a + "/" + b
  }

  function DigitChar(d: nat): (r: char)
    requires d < 10
    ensures '0' <= r <= '9' && r as int - '0' as int == d
  {
    ('0' as int + d) as char
  }

  /** `str(n)` for a natural number: its decimal digits, most significant first. */
  function NatToString(n: nat): (r: string)
    ensures 1 <= |r|
    ensures forall i :: 0 <= i < |r| ==> '0' <= r[i] <= '9'
    ensures n >= 10 <==> |r| > 1
  {
    if n < 10 then [DigitChar(n)] else NatToString(n / 10) + [DigitChar(n % 10)]
  }

  /** The value of a string of decimal digits. */
  function DigitsValue(s: string): nat
    requires forall i :: 0 <= i < |s| ==> '0' <= s[i] <= '9'
  {
    if s == [] then 0 else 10 * DigitsValue(s[..|s| - 1]) + (s[|s| - 1] as int - '0' as int)
  }

  /** `str(n)` reads back as `n` and has no superfluous leading zero. */
  lemma {:induction false} NatToStringValue(n: nat)
    ensures DigitsValue(NatToString(n)) == n
    ensures |NatToString(n)| > 1 ==> NatToString(n)[0] != '0'
  {
    if n >= 10 {
      NatToStringValue(n / 10);
      var r := NatToString(n);
      var h := NatToString(n / 10);
      assert r == h + [DigitChar(n % 10)];
      assert r[..|r| - 1] == h;
      assert DigitsValue(r) == 10 * DigitsValue(h) + n % 10;
      assert r[0] == h[0];
    }
  }

  /** `str(i)` for any integer. */
  function IntToString(i: int): string
  {
    if i < 0 then "-" + NatToString(-i) else NatToString(i)
  }

  /** `c * n`. */
  function Repeat(c: char, n: nat): (r: string)
    ensures |r| == n && forall i :: 0 <= i < n ==> r[i] == c
  {
    seq(n, _ => c)
  }
}
