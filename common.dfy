/** Values shared by the HTTP routes and the two chat components: optional JSON
    fields with JavaScript truthiness, the backend failure switches, message
    contents, and the string helpers used by `join`, `startsWith` and `trim`. */
module Common {

  datatype Option<+T> = None | Some(value: T)

  /** JavaScript truthiness of an optional string field: present and non-empty. */
  predicate Truthy(o: Option<string>) {
    o.Some? && o.value != ""
  }

  /** `x || null`: the value when it is truthy, otherwise null. */
  function OrNull(o: Option<string>): (r: Option<string>)
    ensures r.Some? <==> Truthy(o)
    ensures r.Some? ==> r == o
  {
    if Truthy(o) then o else None
  }

  /** `x || fallback` on an optional string. */
  function OrElse(o: Option<string>, fallback: string): (r: string)
    ensures Truthy(o) ==> r == o.value
    ensures !Truthy(o) ==> r == fallback
  {
    if Truthy(o) then o.value else fallback
  }

  /** What a route sees of the hosted store: whether its two environment
      variables are set, whether reading the request cookies throws (with the
      exception's message), and the error the store call reports, if any. */
  datatype Backend = Backend(configured: bool, fault: Option<string>, dbError: Option<string>)

  /** A backend on which every call works. */
  predicate Healthy(b: Backend) {
    b.configured && b.fault.None? && b.dbError.None?
  }

  /** One element of a multi-part message content. */
  datatype Part = TextPart(text: string) | ImagePart(image: string) | OtherPart

  /** A message content as it travels in JSON: a string, an array of parts, or
      any other value, carried with its JavaScript string conversion. */
  datatype Content = Text(s: string) | Parts(parts: seq<Part>) | Other(shown: string)

  /** `String(content)` in JavaScript: an array of part objects becomes
      `[object Object]` per element, separated by commas. */
  function JsString(c: Content): string {
    match c
    case Text(s) => s
    case Parts(ps) => Join(seq(|ps|, _ => "[object Object]"), ",")
    case Other(shown) => shown
  }

  /** `xs.join(sep)`. */
  function Join(xs: seq<string>, sep: string): string
    decreases |xs|
  {
    if |xs| == 0 then ""
    else if |xs| == 1 then xs[0]
    else Join(xs[..|xs| - 1], sep) + sep + xs[|xs| - 1]
  }

  /** Where element `k` starts inside `Join(xs, sep)`. */
  function JoinOffset(xs: seq<string>, sep: string, k: nat): nat
    requires k < |xs|
    decreases |xs|
  {
    if k == |xs| - 1 then (if |xs| == 1 then 0 else |Join(xs[..|xs| - 1], sep)| + |sep|)
    else JoinOffset(xs[..|xs| - 1], sep, k)
  }

  /** Every element of a join can be found, unchanged, at its offset. */
  lemma {:induction false} JoinContains(xs: seq<string>, sep: string, k: nat)
    requires k < |xs|
    ensures JoinOffset(xs, sep, k) + |xs[k]| <= |Join(xs, sep)|
    ensures Join(xs, sep)[JoinOffset(xs, sep, k)..JoinOffset(xs, sep, k) + |xs[k]|] == xs[k]
  {
    if |xs| > 1 {
      var init := xs[..|xs| - 1];
      var j := Join(init, sep);
      assert Join(xs, sep) == j + sep + xs[|xs| - 1];
      if k < |xs| - 1 {
        JoinContains(init, sep, k);
        assert init[k] == xs[k];
        var o := JoinOffset(init, sep, k);
        assert Join(xs, sep)[o..o + |xs[k]|] == j[o..o + |xs[k]|];
      } else {
        assert Join(xs, sep)[|j| + |sep|..] == xs[k];
      }
    }
  }

  /** `a` occurs inside `b` starting at index `i`. */
  predicate OccursAt(a: string, b: string, i: int) {
    0 <= i <= |b| - |a| && b[i..i + |a|] == a
  }

  /** An occurrence inside an occurrence is an occurrence. */
  lemma OccursWithin(a: string, b: string, c: string, i: int, j: int)
    requires OccursAt(a, b, i) && OccursAt(b, c, j)
    ensures OccursAt(a, c, j + i)
  {
    forall k | 0 <= k < |a|
      ensures c[j + i..j + i + |a|][k] == a[k]
    {
      assert c[j..j + |b|][i + k] == b[i + k];
      assert b[i..i + |a|][k] == a[k];
    }
  }

  /** The middle piece of a concatenation occurs right after the first piece. */
  lemma OccursInConcat(p: string, b: string, q: string)
    ensures OccursAt(b, p + b + q, |p|)
  {
    assert (p + b + q)[|p|..|p| + |b|] == b;
  }

  /** The second piece of a concatenation occurs right after the first. */
  lemma OccursAfter(p: string, b: string)
    ensures OccursAt(b, p + b, |p|)
  {
    assert (p + b)[|p|..|p| + |b|] == b;
  }

  /** An occurrence stays one, shifted, behind a prefix. */
  lemma OccursBehind(a: string, p: string, b: string, i: int)
    requires OccursAt(a, b, i)
    ensures OccursAt(a, p + b, |p| + i)
  {
    OccursAfter(p, b);
    OccursWithin(a, b, p + b, i, |p|);
  }

  /** `b.includes(a)`. */
  ghost predicate IsInfix(a: string, b: string) {
    exists i :: OccursAt(a, b, i)
  }

  /** `s.startsWith(prefix)`. */
  predicate StartsWith(s: string, prefix: string) {
    |prefix| <= |s| && s[..|prefix|] == prefix
  }

  /** `s.endsWith(suffix)`. */
  predicate EndsWith(s: string, suffix: string) {
    |suffix| <= |s| && s[|s| - |suffix|..] == suffix
  }

  /** The characters `String.prototype.trim` removes: ECMAScript WhiteSpace and
      LineTerminator. */
  predicate IsJsSpace(c: char) {
    c == '\t' || c == '\n' || c == '\U{000B}' || c == '\U{000C}' || c == '\r' || c == ' '
    || c == '\U{00A0}' || c == '\U{1680}' || ('\U{2000}' <= c <= '\U{200A}')
    || c == '\U{2028}' || c == '\U{2029}' || c == '\U{202F}' || c == '\U{205F}'
    || c == '\U{3000}' || c == '\U{FEFF}'
  }

  function TrimStart(s: string): string {
    if |s| > 0 && IsJsSpace(s[0]) then TrimStart(s[1..]) else s
  }

  function TrimEnd(s: string): string {
    if |s| > 0 && IsJsSpace(s[|s| - 1]) then TrimEnd(s[..|s| - 1]) else s
  }

  /** `s.trim()`. */
  function Trim(s: string): string {
    TrimEnd(TrimStart(s))
  }

  /** `trim()` yields the empty string exactly on inputs made only of white space. */
  lemma TrimEmptyIffBlank(s: string)
    ensures Trim(s) == "" <==> forall i :: 0 <= i < |s| ==> IsJsSpace(s[i])
  {
    TrimStartEmptyIffBlank(s);
    TrimEndEmptyIffBlank(TrimStart(s));
    if TrimStart(s) != "" {
      TrimStartNotBlank(s);
    }
  }

  lemma {:induction false} TrimStartNotBlank(s: string)
    requires TrimStart(s) != ""
    ensures !IsJsSpace(TrimStart(s)[0])
  {
    if |s| > 0 && IsJsSpace(s[0]) {
      TrimStartNotBlank(s[1..]);
    }
  }

  lemma {:induction false} TrimStartEmptyIffBlank(s: string)
    ensures TrimStart(s) == "" <==> forall i :: 0 <= i < |s| ==> IsJsSpace(s[i])
  {
    if |s| > 0 && IsJsSpace(s[0]) {
      var tail := s[1..];
      TrimStartEmptyIffBlank(tail);
      assert forall i :: 0 <= i < |tail| ==> tail[i] == s[i + 1];
      if TrimStart(s) == "" {
        forall i | 0 <= i < |s| ensures IsJsSpace(s[i]) {
          if i > 0 { assert tail[i - 1] == s[i]; }
        }
      }
    }
  }

  lemma {:induction false} TrimEndEmptyIffBlank(s: string)
    ensures TrimEnd(s) == "" <==> forall i :: 0 <= i < |s| ==> IsJsSpace(s[i])
  {
    if |s| > 0 && IsJsSpace(s[|s| - 1]) {
      var init := s[..|s| - 1];
      TrimEndEmptyIffBlank(init);
      assert forall i :: 0 <= i < |init| ==> init[i] == s[i];
      if TrimEnd(s) == "" {
        forall i | 0 <= i < |s| ensures IsJsSpace(s[i]) {
          if i < |init| { assert init[i] == s[i]; }
        }
      }
    }
  }
}
