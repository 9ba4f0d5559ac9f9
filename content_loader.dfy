/**
 * The string logic of the content page (src/mainContent/script.js): where
 * `loadSnippet` looks for a pattern's code snippet, whether `loadExample`
 * treats the example field as a path, and the ordered, duplicate-free list of
 * URLs it tries for that path.
 *
 * Fetching is a parameter: `fetchable` is the set of URLs whose fetch, and the
 * handling of its response, completes without `!res.ok` or an exception.
 */
module ContentLoader {
  import opened Wrappers

  const NO_SNIPPET: string := "// No snippet available"
  const NO_EXAMPLE: string := "No example specified"

  /** The fields of a content-map entry the two loaders read; an absent field is `None`. */
  datatype Content = Content(snippet: Option<string>, snippetPath: Option<string>, example: Option<string>)

  /** JavaScript truthiness of an optional string field: present and not empty. */
  predicate Truthy(o: Option<string>) {
    o.Some? && o.value != ""
  }

  // ---------------------------------------------------------------------------
  // String helpers
  // ---------------------------------------------------------------------------

  /** `s.replace(/^p/, '')` for a literal `p`: drops one leading `p`. */
  function StripPrefix(s: string, p: string): (r: string)
    ensures p <= s ==> s == p + r
    ensures !(p <= s) ==> r == s
  {
    if p <= s then s[|p|..] else s
  }

  /** `s.includes(sub)`. */
  predicate Contains(s: string, sub: string)
    decreases |s|
  {
    sub <= s || (s != [] && Contains(s[1..], sub))
  }

  predicate EndsWith(s: string, suffix: string) {
    |suffix| <= |s| && s[|s| - |suffix|..] == suffix
  }

  /** The case folding of a regular expression's `i` flag, which only relates ASCII letters here. */
  function LowerAscii(c: char): char {
    if 'A' <= c <= 'Z' then (c as int + 32) as char else c
  }

  function Lower(s: string): (r: string)
    ensures |r| == |s| && forall i :: 0 <= i < |s| ==> r[i] == LowerAscii(s[i])
  {
    seq(|s|, i requires 0 <= i < |s| => LowerAscii(s[i]))
  }

  /** The characters `String.prototype.trim` removes: white space and line terminators. */
  predicate IsJsSpace(c: char) {
    var n := c as int;
    n == 0x09 || n == 0x0A || n == 0x0B || n == 0x0C || n == 0x0D || n == 0x20 ||
    n == 0xA0 || n == 0x1680 || (0x2000 <= n <= 0x200A) || n == 0x2028 || n == 0x2029 ||
    n == 0x202F || n == 0x205F || n == 0x3000 || n == 0xFEFF
  }

  /** The index of the first character at or after `i` that is not white space. */
  function SkipLeading(s: string, i: nat): (n: nat)
    requires i <= |s|
    ensures i <= n <= |s|
    ensures forall k :: i <= k < n ==> IsJsSpace(s[k])
    ensures n < |s| ==> !IsJsSpace(s[n])
    decreases |s| - i
  {
    if i < |s| && IsJsSpace(s[i]) then SkipLeading(s, i + 1) else i
  }

  /** The end of `s[lo..j]` once its trailing white space is dropped. */
  function SkipTrailing(s: string, lo: nat, j: nat): (n: nat)
    requires lo <= j <= |s|
    ensures lo <= n <= j
    ensures forall k :: n <= k < j ==> IsJsSpace(s[k])
    ensures n > lo ==> !IsJsSpace(s[n - 1])
    decreases j - lo
  {
    if j > lo && IsJsSpace(s[j - 1]) then SkipTrailing(s, lo, j - 1) else j
  }

  /** `r` is `s[i..j]`, and everything of `s` outside that slice is white space. */
  ghost predicate TrimmedAt(s: string, r: string, i: nat, j: nat) {
    && i <= j <= |s|
    && r == s[i..j]
    && (forall k :: 0 <= k < i ==> IsJsSpace(s[k]))
    && (forall k :: j <= k < |s| ==> IsJsSpace(s[k]))
  }

  /**
   * `String.prototype.trim`: the leading white space is skipped, then the
   * trailing white space of what remains.
   */
  function Trim(s: string): (r: string)
    ensures exists i: nat, j: nat :: TrimmedAt(s, r, i, j)
    ensures r != [] ==> !IsJsSpace(r[0]) && !IsJsSpace(r[|r| - 1])
    ensures (forall k :: 0 <= k < |s| ==> IsJsSpace(s[k])) ==> r == []
  {
    var i := SkipLeading(s, 0);
    var j := SkipTrailing(s, i, |s|);
    assert TrimmedAt(s, s[i..j], i, j);
    s[i..j]
  }

  // ---------------------------------------------------------------------------
  // loadSnippet
  // ---------------------------------------------------------------------------

  /** The normalisation of a snippet path: a leading `src/` is removed first, then a leading `/`. */
  function NormalizeSnippetPath(path: string): (r: string)
    ensures "src/" <= path ==> r == StripPrefix(path[4..], "/")
    ensures !("src/" <= path) && "/" <= path ==> r == path[1..]
    ensures !("src/" <= path) && !("/" <= path) ==> r == path
  {
    StripPrefix(StripPrefix(path, "src/"), "/")
  }

  /** Where `loadSnippet` finds its text. */
  datatype SnippetSource =
    | InlineSnippet(text: string)  // `data.snippet`, returned as it is
    | FetchSnippet(url: string)    // fetched from `url` (what is done with the response is not modelled)
    | NoSnippet(text: string)      // the placeholder text

  /** `loadSnippet(data)` on a page whose `location.pathname` is `pagePath`. */
  function LoadSnippet(data: Option<Content>, pagePath: string): (r: SnippetSource)
    ensures data.Some? && Truthy(data.value.snippet) ==> r == InlineSnippet(data.value.snippet.value)
    ensures r.FetchSnippet? <==> data.Some? && !Truthy(data.value.snippet) && Truthy(data.value.snippetPath)
    ensures r.FetchSnippet? ==>
              r.url == (if Contains(pagePath, "/mainContent/") then "../" else "") + NormalizeSnippetPath(data.value.snippetPath.value)
    ensures !(data.Some? && (Truthy(data.value.snippet) || Truthy(data.value.snippetPath))) ==> r == NoSnippet(NO_SNIPPET)
  {
    if data.Some? && Truthy(data.value.snippet) then InlineSnippet(data.value.snippet.value)
    else if data.Some? && Truthy(data.value.snippetPath) then
      var rel := NormalizeSnippetPath(data.value.snippetPath.value);
      FetchSnippet(if Contains(pagePath, "/mainContent/") then "../" + rel else rel)
    else NoSnippet(NO_SNIPPET)
  }

  /** The order of the two replacements matters: `/src/a` keeps its `src/`. */
  lemma SnippetPathNormalization(a: string)
    ensures NormalizeSnippetPath("src/" + a) == StripPrefix(a, "/")
    ensures NormalizeSnippetPath("/" + a) == a
    ensures NormalizeSnippetPath("/src/" + a) == "src/" + a
  {
    assert ("src/" + a)[4..] == a;
    assert !("src/" <= "/" + a) by { assert ("/" + a)[0] == '/'; }
    assert ("/" + a)[1..] == a;
    assert !("src/" <= "/src/" + a) by { assert ("/src/" + a)[0] == '/'; }
    assert ("/src/" + a)[1..] == "src/" + a;
  }

  // ---------------------------------------------------------------------------
  // loadExample
  // ---------------------------------------------------------------------------

  /** `/\.(html?|htm)$/i`. */
  predicate HasHtmlExtension(s: string) {
    EndsWith(Lower(s), ".htm") || EndsWith(Lower(s), ".html")
  }

  /** `/^https?:\/\//i`. */
  predicate IsHttpUrl(s: string) {
    "http://" <= Lower(s) || "https://" <= Lower(s)
  }

  /** The `looksLikePath` test; its three prefix tests are implied by the test for `/`. */
  function LooksLikePath(s: string): (b: bool)
    ensures b <==> HasHtmlExtension(s) || '/' in s
  {
    assert "src/" <= s ==> s[3] == '/';
    assert "./" <= s ==> s[1] == '/';
    assert "../" <= s ==> s[2] == '/';
    HasHtmlExtension(s) || '/' in s || "src/" <= s || "./" <= s || "../" <= s
  }

  /** `withoutSrc`: one leading `/` removed (`raw`), then one leading `src/`. */
  function WithoutSrc(s: string): (r: string)
    ensures "/src/" <= s ==> r == s[5..]
    ensures "src/" <= s ==> r == s[4..]
    ensures "/" <= s && !("/src/" <= s) ==> r == s[1..]
    ensures !("/" <= s) && !("src/" <= s) ==> r == s
  {
    assert "src/" <= s ==> s[0] != '/';
    StripPrefix(StripPrefix(s, "/"), "src/")
  }

  /** The candidate URLs for the example path `s`, in the order they are pushed. */
  function Candidates(s: string): (c: seq<string>)
    ensures 2 <= |c| <= 6 && c[0] == s
    ensures IsHttpUrl(s) ==> |c| >= 2 && c[1] == s
    ensures WithoutSrc(s) in c && "./" + WithoutSrc(s) in c
    ensures !(".." <= s) ==> "../" + s in c
    ensures !(".." <= WithoutSrc(s)) ==> "../" + WithoutSrc(s) in c
  {
    assert |WithoutSrc(s)| <= |s|;
    PushedAfter(if IsHttpUrl(s) then [s] else [], s, WithoutSrc(s))
  }

  /**
   * `head` followed by the candidates pushed after the absolute-URL test,
   * the first being `s` itself; `withoutSrc` is `s` with its root removed.
   */
  function PushedAfter(head: seq<string>, s: string, withoutSrc: string): (c: seq<string>)
    ensures |head| + 1 <= |c| <= |head| + 5 && c[..|head|] == head && c[|head|] == s
    ensures withoutSrc in c && "./" + withoutSrc in c
    ensures !(".." <= s) ==> "../" + s in c
    ensures !(".." <= withoutSrc) ==> "../" + withoutSrc in c
    ensures forall x :: x in c ==> x in head || x in {s, withoutSrc, "../" + s, "../" + withoutSrc, "./" + withoutSrc}
  {
    var pushed1 := head + [s];
    var pushed2 := if withoutSrc != s then pushed1 + [withoutSrc] else pushed1;
    var pushed3 := if !(".." <= s) then pushed2 + ["../" + s] else pushed2;
    var pushed4 := if !(".." <= withoutSrc) then pushed3 + ["../" + withoutSrc] else pushed3;
    pushed4 + ["./" + withoutSrc]
  }

  /** Every candidate is `s`, its root-relative form, or one of those under `../` or `./`. */
  lemma CandidateForms(s: string)
    ensures var w := WithoutSrc(s);
            forall x :: x in Candidates(s) ==> x == s || x == w || x == "../" + s || x == "../" + w || x == "./" + w
  {
  }

  /** `../` + `s` is tried exactly when `s` does not start with `..`. */
  lemma ParentCandidate(s: string)
    ensures "../" + s in Candidates(s) <==> !(".." <= s)
  {
  }

  /** The candidate list, built by the source's conditional pushes. */
  method BuildCandidates(s: string) returns (candidates: seq<string>)
    ensures candidates == Candidates(s)
  {
    var raw := StripPrefix(s, "/");
    var withoutSrc := StripPrefix(raw, "src/");
    assert withoutSrc == WithoutSrc(s);
    candidates := [];
    if IsHttpUrl(s) {
      candidates := candidates + [s];
    }
    ghost var head := candidates;
    assert head == (if IsHttpUrl(s) then [s] else []);
    candidates := candidates + [s];
    if withoutSrc != s {
      candidates := candidates + [withoutSrc];
    }
    if !(".." <= s) {
      candidates := candidates + ["../" + s];
    }
    if !(".." <= withoutSrc) {
      candidates := candidates + ["../" + withoutSrc];
    }
    candidates := candidates + ["./" + withoutSrc];
    assert candidates == PushedAfter(head, s, withoutSrc);
    assert Candidates(s) == PushedAfter(head, s, withoutSrc);
  }

  ghost predicate NoDuplicates(u: seq<string>) {
    forall i, j :: 0 <= i < j < |u| ==> u[i] != u[j]
  }

  /** `[...new Set(c)]`: each element at its first occurrence, the others dropped. */
  function Unique(c: seq<string>): (u: seq<string>)
    ensures forall x :: x in u <==> x in c
    ensures NoDuplicates(u)
    decreases |c|
  {
    if c == [] then []
    else
      var seen := Unique(c[..|c| - 1]);
      if c[|c| - 1] in seen then seen else seen + [c[|c| - 1]]
  }

  /** The index of the first occurrence of `x` in `c`. */
  function IndexOf(c: seq<string>, x: string): (i: nat)
    requires x in c
    ensures i < |c| && c[i] == x && x !in c[..i]
  {
    if c[0] == x then 0
    else
      var k := IndexOf(c[1..], x);
      assert c[..k + 1] == [c[0]] + c[1..][..k];
      k + 1
  }

  lemma IndexOfIsFirst(c: seq<string>, x: string, i: nat)
    requires i < |c| && c[i] == x && x !in c[..i]
    ensures IndexOf(c, x) == i
  {
  }

  lemma IndexOfExtended(p: seq<string>, x: string, y: string)
    requires y in p
    ensures y in p + [x] && IndexOf(p + [x], y) == IndexOf(p, y)
  {
    var i := IndexOf(p, y);
    assert (p + [x])[..i] == p[..i];
    IndexOfIsFirst(p + [x], y, i);
  }

  /** The de-duplicated list keeps the order in which elements first occur. */
  lemma {:induction false} UniqueKeepsFirstOccurrenceOrder(c: seq<string>)
    ensures forall i, j :: 0 <= i < j < |Unique(c)| ==> IndexOf(c, Unique(c)[i]) < IndexOf(c, Unique(c)[j])
    decreases |c|
  {
    if c != [] {
      var p := c[..|c| - 1];
      var x := c[|c| - 1];
      assert c == p + [x];
      UniqueKeepsFirstOccurrenceOrder(p);
      var seen := Unique(p);
      var u := Unique(c);
      forall y | y in p
        ensures IndexOf(c, y) == IndexOf(p, y)
      {
        IndexOfExtended(p, x, y);
      }
      if x !in seen {
        assert x !in p;
        assert c[..|p|] == p;
        IndexOfIsFirst(c, x, |p|);
        forall i | 0 <= i < |seen|
          ensures IndexOf(c, u[i]) < IndexOf(c, x)
        {
          assert u[i] == seen[i] && seen[i] in p;
        }
      }
    }
  }

  /** The head of the de-duplicated list is the head of the input. */
  lemma {:induction false} UniqueKeepsHead(c: seq<string>)
    requires c != []
    ensures Unique(c) != [] && Unique(c)[0] == c[0]
    decreases |c|
  {
    var p := c[..|c| - 1];
    if p != [] {
      UniqueKeepsHead(p);
      assert p[0] == c[0];
    }
  }

  /**
   * The list of URLs tried for `s` starts with `s` itself and holds it once,
   * even for an `http(s)` URL, which is pushed twice.
   */
  lemma ExampleUrlTriedFirst(s: string)
    ensures var u := Unique(Candidates(s));
            u != [] && u[0] == s && forall i :: 0 < i < |u| ==> u[i] != s
  {
    UniqueKeepsHead(Candidates(s));
  }

  /** `[...new Set(candidates)]`, inserting element by element. */
  method Deduplicate(candidates: seq<string>) returns (uniq: seq<string>)
    ensures uniq == Unique(candidates)
  {
    uniq := [];
    var i := 0;
    while i < |candidates|
      invariant 0 <= i <= |candidates|
      invariant uniq == Unique(candidates[..i])
    {
      assert candidates[..i + 1][..i] == candidates[..i];
      if candidates[i] !in uniq {
        uniq := uniq + [candidates[i]];
      }
      i := i + 1;
    }
    assert candidates[..|candidates|] == candidates;
  }

  /** The index of the first URL of `uniq` from position `i` on whose fetch succeeds. */
  function FirstFetchable(uniq: seq<string>, fetchable: set<string>, i: nat): (r: Option<nat>)
    requires i <= |uniq|
    ensures r.Some? ==> i <= r.value < |uniq| && uniq[r.value] in fetchable
    ensures r.Some? ==> forall j :: i <= j < r.value ==> uniq[j] !in fetchable
    ensures r.None? <==> forall j :: i <= j < |uniq| ==> uniq[j] !in fetchable
    decreases |uniq| - i
  {
    if i == |uniq| then None
    else if uniq[i] in fetchable then Some(i)
    else FirstFetchable(uniq, fetchable, i + 1)
  }

  /** The loop over `uniq`, returning at the first candidate that loads. */
  method TryCandidates(uniq: seq<string>, fetchable: set<string>) returns (r: Option<string>)
    ensures r.Some? <==> FirstFetchable(uniq, fetchable, 0).Some?
    ensures r.Some? ==> r.value == uniq[FirstFetchable(uniq, fetchable, 0).value]
  {
    var i := 0;
    while i < |uniq|
      invariant 0 <= i <= |uniq|
      invariant FirstFetchable(uniq, fetchable, 0) == FirstFetchable(uniq, fetchable, i)
    {
      if uniq[i] in fetchable {
        return Some(uniq[i]);
      }
      i := i + 1;
    }
    return None;
  }

  /** `parts.join(sep)`. */
  function Join(parts: seq<string>, sep: string): string
    decreases |parts|
  {
    if |parts| == 0 then ""
    else if |parts| == 1 then parts[0]
    else parts[0] + sep + Join(parts[1..], sep)
  }

  /** Joining one more part adds the separator and the part at the end. */
  lemma {:induction false} JoinAppend(parts: seq<string>, x: string, sep: string)
    requires parts != []
    ensures Join(parts + [x], sep) == Join(parts, sep) + sep + x
    decreases |parts|
  {
    if |parts| > 1 {
      assert (parts + [x])[1..] == parts[1..] + [x];
      JoinAppend(parts[1..], x, sep);
    } else {
      assert (parts + [x])[1..] == [x];
    }
  }

  /** Text in front does not hide an occurrence. */
  lemma {:induction false} ContainsAfter(a: string, b: string, x: string)
    requires Contains(b, x)
    ensures Contains(a + b, x)
    decreases |a|
  {
    if a == [] {
      assert a + b == b;
    } else {
      assert (a + b)[1..] == a[1..] + b;
      ContainsAfter(a[1..], b, x);
    }
  }

  /** Text behind does not hide an occurrence. */
  lemma {:induction false} ContainsBefore(a: string, b: string, x: string)
    requires Contains(a, x)
    ensures Contains(a + b, x)
    decreases |a|
  {
    if x <= a {
      assert (a + b)[..|x|] == a[..|x|];
    } else {
      assert (a + b)[1..] == a[1..] + b;
      ContainsBefore(a[1..], b, x);
    }
  }

  /** Every part of a join occurs in it. */
  lemma {:induction false} JoinContains(parts: seq<string>, sep: string, u: string)
    requires u in parts
    ensures Contains(Join(parts, sep), u)
    decreases |parts|
  {
    if |parts| == 1 {
      assert u == parts[0];
    } else {
      var rest := Join(parts[1..], sep);
      assert Join(parts, sep) == parts[0] + (sep + rest);
      if u == parts[0] {
        ContainsBefore(parts[0], sep + rest, u);
      } else {
        assert u in parts[1..];
        JoinContains(parts[1..], sep, u);
        ContainsAfter(parts[0] + sep, rest, u);
        assert parts[0] + (sep + rest) == (parts[0] + sep) + rest;
      }
    }
  }

  /** Every part of a join occurs in it, inside any surrounding text. */
  lemma JoinListsAll(parts: seq<string>, sep: string, pre: string, post: string)
    ensures forall u :: u in parts ==> Contains(pre + Join(parts, sep) + post, u)
  {
    forall u | u in parts
      ensures Contains(pre + Join(parts, sep) + post, u)
    {
      JoinContains(parts, sep, u);
      ContainsBefore(Join(parts, sep), post, u);
      ContainsAfter(pre, Join(parts, sep) + post, u);
      assert pre + (Join(parts, sep) + post) == pre + Join(parts, sep) + post;
    }
  }

  /** The text returned when no candidate loads: the fixed message around every URL tried. */
  function UnableToLoad(uniq: seq<string>): (r: string)
    ensures "// Unable to load example (tried: " <= r && r[|r| - 1] == ')'
    ensures forall u :: u in uniq ==> Contains(r, u)
    ensures uniq == [] ==> r == "// Unable to load example (tried: )"
    ensures |uniq| == 1 ==> r == "// Unable to load example (tried: " + uniq[0] + ")"
  {
    JoinListsAll(uniq, ", ", "// Unable to load example (tried: ", ")");
    "// Unable to load example (tried: " + Join(uniq, ", ") + ")"
  }

  /** What `loadExample` settles on. */
  datatype ExampleOutcome =
    | Text(text: string)      // `{ text }` holding a message
    | Inline(source: string)  // not a path: the trimmed value itself, as text or as sanitised HTML
    | Loaded(url: string)     // the first candidate URL that loaded

  /** `loadExample(data)`. */
  method LoadExample(data: Option<Content>, fetchable: set<string>) returns (r: ExampleOutcome)
    ensures !(data.Some? && Truthy(data.value.example)) ==> r == Text(NO_EXAMPLE)
    ensures data.Some? && Truthy(data.value.example) ==>
              var s := Trim(data.value.example.value);
              var uniq := Unique(Candidates(s));
              && (!LooksLikePath(s) ==> r == Inline(s))
              && (LooksLikePath(s) && FirstFetchable(uniq, fetchable, 0).Some? ==>
                    r == Loaded(uniq[FirstFetchable(uniq, fetchable, 0).value]))
              && (LooksLikePath(s) && FirstFetchable(uniq, fetchable, 0).None? ==>
                    r == Text(UnableToLoad(uniq)))
  {
    if !(data.Some? && Truthy(data.value.example)) {
      return Text(NO_EXAMPLE);
    }
    var s := Trim(data.value.example.value);
    if !LooksLikePath(s) {
      return Inline(s);
    }
    var candidates := BuildCandidates(s);
    var uniq := Deduplicate(candidates);
    var found := TryCandidates(uniq, fetchable);
    if found.Some? {
      return Loaded(found.value);
    }
    return Text(UnableToLoad(uniq));
  }
}
