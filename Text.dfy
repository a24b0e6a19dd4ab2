/**
 * The few JavaScript string operations the application relies on, over
 * `seq<char>`: `startsWith`, `split(',')[1]` and `charAt(0).toUpperCase()`.
 */
module Text {
  import opened Options

  /** `s.startsWith(prefix)`. */
  predicate StartsWith(s: string, prefix: string) {
    |prefix| <= |s| && s[..|prefix|] == prefix
  }

  /** The index of the first comma of `s`, if any. */
  function FirstComma(s: string): (r: Option<nat>)
    ensures r.None? <==> ',' !in s
    ensures r.Some? ==> r.value < |s| && s[r.value] == ',' && ',' !in s[..r.value]
    decreases |s|
  {
    if |s| == 0 then None
    else if s[0] == ',' then Some(0)
    else
      match FirstComma(s[1..])
      case None => None
      case Some(i) =>
        assert s[..i + 1] == [s[0]] + s[1..][..i];
        Some(i + 1)
  }

  /** The text of `s` up to its first comma, or all of `s` when it has none. */
  function UpToComma(s: string): (r: string)
    ensures ',' !in r && r <= s
  {
    match FirstComma(s)
    case None => s
    case Some(j) => s[..j]
  }

  /**
   * `s.split(',')[1]`: the text after the first comma up to the second comma
   * or the end; `None` (JavaScript's `undefined`) when `s` has no comma.
   */
  function SecondField(s: string): (r: Option<string>)
    ensures r.None? <==> ',' !in s
    ensures r.Some? ==> ',' !in r.value
  {
    match FirstComma(s)
    case None => None
    case Some(i) => Some(UpToComma(s[i + 1..]))
  }

  /** A comma-free field followed by nothing or by a further field is read back whole. */
  lemma UpToCommaOfField(b: string, tail: string)
    requires ',' !in b
    requires tail == [] || tail[0] == ','
    ensures UpToComma(b + tail) == b
  {
    if tail == [] {
      assert b + tail == b;
    } else {
      FirstCommaAfter(b, tail[1..]);
      assert b + tail == b + ([','] + tail[1..]);
      assert (b + tail)[..|b|] == b;
    }
  }

  /** Splitting `a + "," + b + tail` yields `b` as the second field when neither `a` nor `b` holds a comma and `tail` is empty or starts a further field. */
  lemma SecondFieldOfJoin(a: string, b: string, tail: string)
    requires ',' !in a && ',' !in b
    requires tail == [] || tail[0] == ','
    ensures SecondField(a + "," + b + tail) == Some(b)
  {
    var s := a + "," + b + tail;
    assert s == a + ([','] + (b + tail));
    FirstCommaAfter(a, b + tail);
    assert s[|a| + 1..] == b + tail;
    UpToCommaOfField(b, tail);
  }

  /** The first comma of `a + "," + rest` is the one right after `a` when `a` has none. */
  lemma {:induction false} FirstCommaAfter(a: string, rest: string)
    requires ',' !in a
    ensures FirstComma(a + ([','] + rest)) == Some(|a|)
    decreases |a|
  {
    var s := a + ([','] + rest);
    if |a| > 0 {
      assert s[1..] == a[1..] + ([','] + rest);
      assert a[0] in a;
      FirstCommaAfter(a[1..], rest);
    }
  }

  /** `toUpperCase` on one character, for the ASCII letters; every other character is kept. */
  function UpperAscii(c: char): (u: char)
    ensures 'a' <= c <= 'z' ==> 'A' <= u <= 'Z' && u as int - 'A' as int == c as int - 'a' as int
    ensures !('a' <= c <= 'z') ==> u == c
  {
    if 'a' <= c <= 'z' then (c as int - 'a' as int + 'A' as int) as char else c
  }
}
