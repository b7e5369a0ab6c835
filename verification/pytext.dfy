/** The three pieces of Python string behaviour the client relies on:
    the `in` operator on strings, `re.findall("(?:KEY)(.*)", s)[0]`, and
    `template % args` with `%s` conversions. */
module PyText {

  datatype Option<+T> = None | Some(value: T)

  /** `key` occurs in `s` starting at index `i`. */
  predicate OccursAt(s: string, key: string, i: nat)
  {
    i + |key| <= |s| && s[i..i + |key|] == key
  }

  /** The first index at or after `from` where `key` occurs in `s`. */
  function FindFrom(s: string, key: string, from: nat): (r: Option<nat>)
    decreases |s| - from
    ensures r.Some? ==> from <= r.value && OccursAt(s, key, r.value)
    ensures r.Some? ==> forall j: nat :: from <= j < r.value ==> !OccursAt(s, key, j)
    ensures r.None? ==> forall j: nat :: from <= j ==> !OccursAt(s, key, j)
  {
    if from + |key| > |s| then None
    else if s[from..from + |key|] == key then Some(from)
    else FindFrom(s, key, from + 1)
  }

  /** The first index where `key` occurs in `s`, if any. */
  function Find(s: string, key: string): (r: Option<nat>)
    ensures r.Some? ==> OccursAt(s, key, r.value)
    ensures r.Some? ==> forall j: nat :: j < r.value ==> !OccursAt(s, key, j)
    ensures r.None? <==> forall j: nat :: !OccursAt(s, key, j)
  {
    FindFrom(s, key, 0)
  }

  /** Python's `needle in haystack` on two strings: substring containment,
      so the empty string is in every string. */
  function Contains(haystack: string, needle: string): (b: bool)
    ensures b <==> exists i :: OccursAt(haystack, needle, i)
  {
    Find(haystack, needle).Some?
  }

  /** Every string contains itself. */
  lemma ContainsSelf(s: string)
    ensures Contains(s, s)
  {
    assert OccursAt(s, s, 0);
  }

  /** A needle with a character the haystack lacks occurs nowhere in it. */
  lemma Absent(haystack: string, needle: string, k: nat)
    requires k < |needle| && needle[k] !in haystack
    ensures !Contains(haystack, needle)
  {
  }

  /** No occurrence of `key` starts before `i` when the `k`-th character of
      `key` is missing from the characters such an occurrence would cover. */
  lemma NoOccurrenceBefore(s: string, key: string, i: nat, k: nat)
    requires k < |key| && i + k <= |s| && key[k] !in s[k..i + k]
    ensures forall j: nat :: j < i ==> !OccursAt(s, key, j)
  {
    forall j: nat | j < i
      ensures !OccursAt(s, key, j)
    {
      if j + |key| <= |s| {
        assert s[j..j + |key|][k] == s[j + k] == s[k..i + k][j];
      }
    }
  }

  /** `v` is the text that starts at index `k` of `s` and runs up to, not
      including, the next newline or the end of `s`: what `.*` matches there. */
  ghost predicate IsLineAt(s: string, k: nat, v: string)
  {
    && k + |v| <= |s|
    && s[k..k + |v|] == v
    && '\n' !in v
    && (k + |v| == |s| || s[k + |v|] == '\n')
  }

  /** The characters of `s` from index `k` to the next newline, exclusive. */
  function LineFrom(s: string, k: nat): (r: string)
    requires k <= |s|
    decreases |s| - k
    ensures IsLineAt(s, k, r)
  {
    if k == |s| || s[k] == '\n' then "" else [s[k]] + LineFrom(s, k + 1)
  }

  /** `v` is what the first match of the pattern `(?:key)(.*)` captures in `s`:
      the match begins at the first occurrence of `key`, and the group runs
      from there to the end of the line. */
  ghost predicate IsFirstCapture(s: string, key: string, v: string)
  {
    exists i: nat {:trigger OccursAt(s, key, i)} ::
      && OccursAt(s, key, i)
      && (forall j: nat :: j < i ==> !OccursAt(s, key, j))
      && IsLineAt(s, i + |key|, v)
  }

  /** `re.findall("(?:" + key + ")(.*)", s)[0]` for a `key` without regular
      expression metacharacters; `None` stands for the IndexError raised when
      there is no match. */
  function FirstCapture(s: string, key: string): (r: Option<string>)
    ensures r.Some? ==> '\n' !in r.value && |key| + |r.value| <= |s|
  {
    match Find(s, key)
    case None => None
    case Some(i) => Some(LineFrom(s, i + |key|))
  }

  /** `FirstCapture` fails exactly when the key is absent, and otherwise
      returns what the first match captures. */
  lemma FirstCaptureSpec(s: string, key: string)
    ensures FirstCapture(s, key).None? <==> forall i: nat :: !OccursAt(s, key, i)
    ensures FirstCapture(s, key).Some? ==> IsFirstCapture(s, key, FirstCapture(s, key).value)
  {
    var f := Find(s, key);
    if f.Some? {
      var v := LineFrom(s, f.value + |key|);
      assert FirstCapture(s, key) == Some(v);
      CaptureWitness(s, key, f.value, v);
    } else {
      assert FirstCapture(s, key) == None;
    }
  }

  lemma CaptureWitness(s: string, key: string, i: nat, v: string)
    requires OccursAt(s, key, i)
    requires forall j: nat :: j < i ==> !OccursAt(s, key, j)
    requires IsLineAt(s, i + |key|, v)
    ensures IsFirstCapture(s, key, v)
  {
  }

  lemma IsLineAtUnique(s: string, k: nat, v: string, w: string)
    requires IsLineAt(s, k, v) && IsLineAt(s, k, w)
    ensures v == w
  {
  }

  lemma FindIsFirst(s: string, key: string, i: nat)
    requires OccursAt(s, key, i)
    requires forall j: nat :: j < i ==> !OccursAt(s, key, j)
    ensures Find(s, key) == Some(i)
  {
  }

  lemma CaptureAt(s: string, key: string, i: nat, v: string)
    requires OccursAt(s, key, i)
    requires forall j: nat :: j < i ==> !OccursAt(s, key, j)
    requires IsLineAt(s, i + |key|, v)
    ensures FirstCapture(s, key) == Some(v)
  {
    FindIsFirst(s, key, i);
    IsLineAtUnique(s, i + |key|, v, LineFrom(s, i + |key|));
  }

  /** The capture is determined by the text: `FirstCapture` returns exactly
      the one value `IsFirstCapture` allows. */
  lemma FirstCaptureExact(s: string, key: string, v: string)
    ensures IsFirstCapture(s, key, v) <==> FirstCapture(s, key) == Some(v)
  {
    FirstCaptureSpec(s, key);
    if IsFirstCapture(s, key, v) {
      var i: nat :| && OccursAt(s, key, i)
                     && (forall j: nat :: j < i ==> !OccursAt(s, key, j))
                     && IsLineAt(s, i + |key|, v);
      CaptureAt(s, key, i, v);
    }
  }

  /** Python's `template % args` where every argument is already a string,
      for templates whose conversions are `%s` and the escape `%%`; any other
      conversion (`%d`, `%r`, a width, ...) is outside this model and gives
      `None`. Otherwise `None` stands for the TypeError Python raises when
      there are too few or too many arguments. A template without `%` is
      returned as it is when there are no arguments, and raises when there
      are some ("not all arguments converted"). */
  function Interpolate(template: string, args: seq<string>): (r: Option<string>)
    decreases |template|
    ensures '%' !in template ==> r == if args == [] then Some(template) else None
  {
    if template == [] then
      if args == [] then Some("") else None
    else if template[0] != '%' then
      assert [template[0]] + template[1..] == template;
      Prepend([template[0]], Interpolate(template[1..], args))
    else if |template| >= 2 && template[1] == '%' then
      Prepend("%", Interpolate(template[2..], args))
    else if |template| >= 2 && template[1] == 's' && args != [] then
      Prepend(args[0], Interpolate(template[2..], args[1..]))
    else
      None
  }

  function Prepend(p: string, r: Option<string>): Option<string>
  {
    match r
    case None => None
    case Some(s) => Some(p + s)
  }

  /** The template `pieces[0] %s pieces[1] %s ... pieces[n]`. */
  function Template(pieces: seq<string>): string
    requires |pieces| > 0
  {
    if |pieces| == 1 then pieces[0] else pieces[0] + "%s" + Template(pieces[1..])
  }

  /** The pieces with the arguments in between, in order. */
  function Fill(pieces: seq<string>, args: seq<string>): string
    requires |pieces| == |args| + 1
  {
    if args == [] then pieces[0] else pieces[0] + args[0] + Fill(pieces[1..], args[1..])
  }

  /** `Fill` with three holes, written out. */
  lemma FillThree(p: seq<string>, a: string, b: string, c: string)
    requires |p| == 4
    ensures Fill(p, [a, b, c]) == p[0] + a + (p[1] + b + (p[2] + c + p[3]))
  {
    assert [a, b, c][1..] == [b, c] && [b, c][1..] == [c] && [c][1..] == [];
    assert p[1..][1..] == p[2..] && p[2..][1..] == p[3..];
    assert Fill(p[3..], []) == p[3];
    assert Fill(p[2..], [c]) == p[2] + c + p[3];
    assert Fill(p[1..], [b, c]) == p[1] + b + (p[2] + c + p[3]);
  }

  /** `Fill` with five holes, written out. */
  lemma FillFive(p: seq<string>, a: string, b: string, c: string, d: string, e: string)
    requires |p| == 6
    ensures Fill(p, [a, b, c, d, e]) ==
      p[0] + a + (p[1] + b + (p[2] + c + (p[3] + d + (p[4] + e + p[5]))))
  {
    assert [a, b, c, d, e][1..] == [b, c, d, e] && [b, c, d, e][1..] == [c, d, e];
    assert p[1..][1..] == p[2..];
    FillThree(p[2..], c, d, e);
  }

  /** No piece contains a `%`, so the only conversions are the holes. */
  predicate NoPercent(pieces: seq<string>)
  {
    pieces == [] || ('%' !in pieces[0] && NoPercent(pieces[1..]))
  }

  lemma {:induction false} InterpolateLiteral(lit: string, rest: string, args: seq<string>)
    requires '%' !in lit
    ensures Interpolate(lit + rest, args) == Prepend(lit, Interpolate(rest, args))
  {
    if lit != [] {
      assert (lit + rest)[0] == lit[0];
      assert (lit + rest)[1..] == lit[1..] + rest;
      InterpolateLiteral(lit[1..], rest, args);
      assert [lit[0]] + lit[1..] == lit;
      match Interpolate(rest, args)
      case None =>
      case Some(s) =>
        assert [lit[0]] + (lit[1..] + s) == lit + s;
    } else {
      assert lit + rest == rest;
      match Interpolate(rest, args)
      case None =>
      case Some(s) => assert lit + s == s;
    }
  }

  /** Python's `%` substitutes the arguments into the holes of a template
      without `%` elsewhere, in order and verbatim. */
  lemma {:induction false} InterpolateFills(pieces: seq<string>, args: seq<string>)
    requires |pieces| == |args| + 1 && NoPercent(pieces)
    ensures Interpolate(Template(pieces), args) == Some(Fill(pieces, args))
  {
    if args == [] {
      InterpolateLiteral(pieces[0], "", []);
      assert pieces[0] + "" == pieces[0];
    } else {
      var tail := Template(pieces[1..]);
      InterpolateFills(pieces[1..], args[1..]);
      assert pieces[0] + "%s" + tail == pieces[0] + ("%s" + tail);
      InterpolateLiteral(pieces[0], "%s" + tail, args);
      var t := "%s" + tail;
      assert t[0] == '%' && t[1] == 's' && t[2..] == tail;
      assert pieces[0] + (args[0] + Fill(pieces[1..], args[1..])) == Fill(pieces, args);
    }
  }

  /** Python raises when the number of arguments differs from the number of
      holes. */
  lemma {:induction false} InterpolateArity(pieces: seq<string>, args: seq<string>)
    requires |pieces| > 0 && NoPercent(pieces)
    requires |args| != |pieces| - 1
    ensures Interpolate(Template(pieces), args) == None
  {
    assert '%' !in pieces[0];
    if |pieces| == 1 {
      InterpolateLiteral(pieces[0], "", args);
      assert pieces[0] + "" == pieces[0];
    } else {
      var tail := Template(pieces[1..]);
      assert pieces[0] + "%s" + tail == pieces[0] + ("%s" + tail);
      InterpolateLiteral(pieces[0], "%s" + tail, args);
      var t := "%s" + tail;
      assert t[0] == '%' && t[1] == 's' && t[2..] == tail;
      if args != [] {
        InterpolateArity(pieces[1..], args[1..]);
      }
    }
  }
}
