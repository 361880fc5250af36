/** The homepage scraper: one GET, then metadata, cleaned main text and
    contact signals taken from the parsed page. The network client, the HTML
    parser and the e-mail and phone regular expressions are parameters. */
module WebScraper {
  import opened Wrappers
  import opened PyStr
  import opened Soup

  /** Longest main text handed on to the language model. */
  const MaxLlmContentLength: nat := 16000

  /** Elements whose subtrees are dropped before any text is taken. */
  const RemovedTags: set<string> := {"script", "style", "nav", "footer", "header", "aside", "form"}

  const FetchFailedMessage := "Failed to fetch the URL. The website may be down or blocking requests."
  const UnexpectedMessage := "An unexpected error occurred while processing the website's content."

  datatype Metadata = Metadata(title: string, description: string)

  datatype ContactData = ContactData(emails: seq<string>, phones: seq<string>, socialLinks: map<string, string>)

  datatype ScrapedData = ScrapedData(url: string, mainContent: string, metadata: Metadata, contact: ContactData)

  /** What the single GET produced: an `httpx.RequestError` (name resolution,
      refused connection, timeout, too many redirects) or a final response. */
  datatype FetchOutcome = RequestError | Response(statusCode: int, text: string)

  /** `raise_for_status()` lets exactly the 2xx responses through. */
  predicate IsSuccess(code: int) {
    200 <= code < 300
  }

  predicate Trimmed(s: string) {
    s == [] || (!IsSpace(s[0]) && !IsSpace(s[|s| - 1]))
  }

  // ---------------------------------------------------------------------------
  // Metadata

  predicate IsTitle(n: Node) { HasTag(n, "title") }

  /** The page title: the stripped `.string` of the first `title` element, or
      `''` when there is no such element or it has no single string. */
  function PageTitle(tree: seq<Node>): (t: string)
    ensures Trimmed(t)
    ensures Find(tree, IsTitle).None? ==> t == ""
    ensures Find(tree, IsTitle).Some? && StringOf(Find(tree, IsTitle).value).None? ==> t == ""
    ensures Find(tree, IsTitle).Some? && StringOf(Find(tree, IsTitle).value).Some? ==>
              t == Strip(StringOf(Find(tree, IsTitle).value).value)
  {
    match Find(tree, IsTitle)
    case None => ""
    case Some(node) =>
      match StringOf(node)
      case None => ""
      case Some(s) => Strip(s)
  }

  /** The title step as written: `soup.title.string.strip()` raises when the
      title element exists but `.string` is `None` (an empty `<title></title>`). */
  function PageTitleAsWritten(tree: seq<Node>): (r: Result<string, string>)
    ensures r.Failure? <==> Find(tree, IsTitle).Some? && StringOf(Find(tree, IsTitle).value).None?
    ensures r.Success? ==> Trimmed(r.value)
    ensures Find(tree, IsTitle).None? ==> r == Success("")
  {
    match Find(tree, IsTitle)
    case None => Success("")
    case Some(node) =>
      match StringOf(node)
      case None => Failure("'NoneType' object has no attribute 'strip'")
      case Some(s) => Success(Strip(s))
  }

  /** Where the code as written gets a title, it is the corrected one; it fails
      exactly when a title element has no single string. */
  lemma TitleAsWrittenAgrees(tree: seq<Node>)
    ensures PageTitleAsWritten(tree).Success? ==> PageTitleAsWritten(tree).value == PageTitle(tree)
    ensures PageTitleAsWritten(tree).Failure? <==> Find(tree, IsTitle).Some? && StringOf(Find(tree, IsTitle).value).None?
  {
  }

  /** `<html><head><title></title></head></html>`: as written the scrape raises
      (and so reports the generic error); the corrected title is `''`. */
  lemma EmptyTitleCounterexample()
    ensures var tree := [Element("html", map[], [Element("head", map[], [Element("title", map[], [])])])];
            PageTitleAsWritten(tree).Failure? && PageTitle(tree) == ""
  {
    var title := Element("title", map[], []);
    var head := Element("head", map[], [title]);
    var tree := [Element("html", map[], [head])];
    assert Descendants([title]) == [title] by {
      assert Descendants([title][1..]) == [];
    }
    assert Descendants([head]) == [head, title] by {
      assert Descendants([head][1..]) == [];
    }
    assert Descendants(tree) == [tree[0], head, title] by {
      assert Descendants(tree[1..]) == [];
    }
    assert FirstIndex(Descendants(tree), IsTitle) == Some(2);
  }

  /** A `meta` element whose `name` contains "description", in any case. */
  predicate IsDescriptionMeta(n: Node) {
    n.Element? && n.tag == "meta" && "name" in n.attrs && ContainsCI(n.attrs["name"], "description")
  }

  /** The page description: the stripped `content` of the first such `meta`,
      `''` when it lacks one, and `''` when there is no such element. */
  function PageDescription(tree: seq<Node>): (d: string)
    ensures Trimmed(d)
    ensures Find(tree, IsDescriptionMeta).None? ==> d == ""
    ensures Find(tree, IsDescriptionMeta).Some? && "content" in Find(tree, IsDescriptionMeta).value.attrs ==>
              d == Strip(Find(tree, IsDescriptionMeta).value.attrs["content"])
    ensures Find(tree, IsDescriptionMeta).Some? && "content" !in Find(tree, IsDescriptionMeta).value.attrs ==> d == ""
  {
    match Find(tree, IsDescriptionMeta)
    case None => ""
    case Some(m) => Strip(if "content" in m.attrs then m.attrs["content"] else "")
  }

  // ---------------------------------------------------------------------------
  // Main content

  predicate IsMain(n: Node) { HasTag(n, "main") }
  predicate IsArticle(n: Node) { HasTag(n, "article") }
  predicate IsBody(n: Node) { HasTag(n, "body") }

  /** A `div` whose class mentions content, main or post, in any case. */
  predicate IsContentDiv(n: Node) {
    HasTag(n, "div") && "class" in n.attrs &&
    (ContainsCI(n.attrs["class"], "content") || ContainsCI(n.attrs["class"], "main") || ContainsCI(n.attrs["class"], "post"))
  }

  /** No descendant of `f` satisfies `p`. */
  predicate NoneIn(f: seq<Node>, p: Node -> bool) {
    forall j :: 0 <= j < |Descendants(f)| ==> !p(Descendants(f)[j])
  }

  /** Priority search for the element holding the main text: the first `main`,
      else the first `article`, else the first matching `div`, else the first
      `body`; nothing only when the document has none of them. */
  function MainContentTag(roots: seq<Node>): (r: Option<Node>)
    ensures r.Some? ==> r.value.Element?
    ensures r.Some? ==> exists i :: 0 <= i < |Descendants(roots)| && Descendants(roots)[i] == r.value
    ensures r.Some? && !IsMain(r.value) ==> NoneIn(roots, IsMain)
    ensures r.Some? && !IsMain(r.value) && !IsArticle(r.value) ==> NoneIn(roots, IsArticle)
    ensures r.Some? && !IsMain(r.value) && !IsArticle(r.value) && !IsContentDiv(r.value) ==>
              NoneIn(roots, IsContentDiv) && IsBody(r.value)
    ensures r.None? <==> NoneIn(roots, IsMain) && NoneIn(roots, IsArticle) && NoneIn(roots, IsContentDiv) && NoneIn(roots, IsBody)
    ensures r.Some? && IsMain(r.value) ==> r == Find(roots, IsMain)
    ensures r.Some? && IsArticle(r.value) ==> r == Find(roots, IsArticle)
    ensures r.Some? && IsContentDiv(r.value) ==> r == Find(roots, IsContentDiv)
    ensures r.Some? && IsBody(r.value) ==> r == Find(roots, IsBody)
  {
    var main := Find(roots, IsMain);
    if main.Some? then main
    else
      var article := Find(roots, IsArticle);
      if article.Some? then article
      else
        var div := Find(roots, IsContentDiv);
        if div.Some? then div
        else Find(roots, IsBody)
  }

  /** Length of the run of newlines at the start of `s`. */
  function LeadingNewlines(s: string): (n: nat)
    ensures n <= |s|
    ensures forall k :: 0 <= k < n ==> s[k] == '\n'
    ensures n < |s| ==> s[n] != '\n'
  {
    if s != [] && s[0] == '\n' then 1 + LeadingNewlines(s[1..]) else 0
  }

  /** `re.sub(r'\n{3,}', '\n\n', s)`: scanning left to right, a run of three or
      more newlines is replaced by two; every other character is copied. */
  function CollapseNewlines(s: string): string
    decreases |s|
  {
    if s == [] then []
    else
      var k := LeadingNewlines(s);
      if k >= 3 then "\n\n" + CollapseNewlines(s[k..])
      else [s[0]] + CollapseNewlines(s[1..])
  }

  /** No three consecutive newlines. */
  predicate Collapsed(s: string) {
    forall i :: 0 <= i <= |s| - 3 ==> !OccursAt(s, i, "\n\n\n")
  }

  lemma ConsCollapsed(c: char, b: string)
    requires Collapsed(b)
    requires c == '\n' ==> LeadingNewlines(b) < 2
    ensures Collapsed([c] + b)
  {
    var s := [c] + b;
    forall i | 0 <= i <= |s| - 3
      ensures !OccursAt(s, i, "\n\n\n")
    {
      var w := s[i..i + 3];
      assert w[0] == s[i] && w[1] == s[i + 1] && w[2] == s[i + 2];
      if i == 0 {
        if c != '\n' {
          assert w[0] != "\n\n\n"[0];
        } else if b[0] != '\n' {
          assert w[1] != "\n\n\n"[1];
        } else {
          assert b[1] != '\n';
          assert w[2] != "\n\n\n"[2];
        }
      } else {
        assert w == b[i - 1..i + 2];
        assert !OccursAt(b, i - 1, "\n\n\n");
      }
    }
  }

  /** The newline run at the start of `[c] + b`. */
  lemma ConsLeading(c: char, b: string)
    ensures LeadingNewlines([c] + b) == if c == '\n' then 1 + LeadingNewlines(b) else 0
  {
    assert ([c] + b)[1..] == b;
  }

  /** Two newlines in front of collapsed text that does not start with one. */
  lemma PairCollapsed(b: string)
    requires Collapsed(b) && LeadingNewlines(b) == 0
    ensures Collapsed("\n\n" + b) && LeadingNewlines("\n\n" + b) == 2
  {
    ConsCollapsed('\n', b);
    ConsLeading('\n', b);
    ConsCollapsed('\n', ['\n'] + b);
    ConsLeading('\n', ['\n'] + b);
    assert "\n\n" + b == ['\n'] + (['\n'] + b);
  }

  /** The collapse leaves no run of three newlines, and keeps a leading run of
      at most two newlines as it was. */
  lemma {:induction false} CollapseNewlinesCollapsed(s: string)
    ensures Collapsed(CollapseNewlines(s))
    ensures LeadingNewlines(CollapseNewlines(s)) == if LeadingNewlines(s) >= 2 then 2 else LeadingNewlines(s)
    decreases |s|
  {
    if s != [] {
      var k := LeadingNewlines(s);
      if k >= 3 {
        CollapseNewlinesCollapsed(s[k..]);
        assert LeadingNewlines(s[k..]) == 0;
        PairCollapsed(CollapseNewlines(s[k..]));
      } else {
        var b := CollapseNewlines(s[1..]);
        CollapseNewlinesCollapsed(s[1..]);
        ConsLeading(s[0], s[1..]);
        assert s == [s[0]] + s[1..];
        ConsCollapsed(s[0], b);
        ConsLeading(s[0], b);
      }
    }
  }

  /** On text that is already collapsed the collapse changes nothing. */
  lemma {:induction false} CollapseNewlinesNoop(s: string)
    requires Collapsed(s)
    ensures CollapseNewlines(s) == s
    decreases |s|
  {
    if s != [] {
      var k := LeadingNewlines(s);
      if k >= 3 {
        assert OccursAt(s, 0, "\n\n\n") by { assert s[..3] == "\n\n\n"; }
      }
      assert Collapsed(s[1..]) by {
        forall i | 0 <= i <= |s[1..]| - 3
          ensures !OccursAt(s[1..], i, "\n\n\n")
        {
          assert s[1..][i..i + 3] == s[i + 1..i + 4];
          assert !OccursAt(s, i + 1, "\n\n\n");
        }
      }
      CollapseNewlinesNoop(s[1..]);
    }
  }

  /** Collapsing twice is collapsing once. */
  lemma CollapseNewlinesIdempotent(s: string)
    ensures CollapseNewlines(CollapseNewlines(s)) == CollapseNewlines(s)
  {
    CollapseNewlinesCollapsed(s);
    CollapseNewlinesNoop(CollapseNewlines(s));
  }

  /** The text with its newlines taken out. */
  function WithoutNewlines(s: string): string {
    if s == [] then [] else (if s[0] == '\n' then [] else [s[0]]) + WithoutNewlines(s[1..])
  }

  lemma {:induction false} WithoutNewlinesAppend(a: string, b: string)
    ensures WithoutNewlines(a + b) == WithoutNewlines(a) + WithoutNewlines(b)
  {
    if a != [] {
      assert (a + b)[1..] == a[1..] + b;
      WithoutNewlinesAppend(a[1..], b);
    } else {
      assert a + b == b;
    }
  }

  lemma {:induction false} WithoutNewlinesRun(s: string, k: nat)
    requires k <= |s| && forall j :: 0 <= j < k ==> s[j] == '\n'
    ensures WithoutNewlines(s[..k]) == []
  {
    if k > 0 {
      assert s[..k][1..] == s[1..][..k - 1];
      WithoutNewlinesRun(s[1..], k - 1);
    }
  }

  /** The collapse removes newlines only: every other character survives, in order. */
  lemma {:induction false} CollapseNewlinesKeepsText(s: string)
    ensures WithoutNewlines(CollapseNewlines(s)) == WithoutNewlines(s)
    decreases |s|
  {
    if s != [] {
      var k := LeadingNewlines(s);
      if k >= 3 {
        CollapseNewlinesKeepsText(s[k..]);
        WithoutNewlinesAppend("\n\n", CollapseNewlines(s[k..]));
        assert WithoutNewlines("\n\n") == [] by {
          assert "\n\n"[1..] == "\n";
          assert "\n"[1..] == [];
        }
        assert s == s[..k] + s[k..];
        WithoutNewlinesAppend(s[..k], s[k..]);
        WithoutNewlinesRun(s, k);
      } else {
        CollapseNewlinesKeepsText(s[1..]);
        assert ([s[0]] + CollapseNewlines(s[1..]))[1..] == CollapseNewlines(s[1..]);
      }
    }
  }

  /** `k` newlines. */
  function Newlines(k: nat): (r: string)
    ensures |r| == k && forall j :: 0 <= j < k ==> r[j] == '\n'
  {
    seq(k, _ => '\n')
  }

  /** `s` does not end in a newline. */
  predicate EndsOutsideRun(s: string) {
    s == [] || s[|s| - 1] != '\n'
  }

  lemma {:induction false} LeadingNewlinesAppend(a: string, c: string)
    requires LeadingNewlines(a) < |a|
    ensures LeadingNewlines(a + c) == LeadingNewlines(a)
  {
    if a[0] == '\n' {
      assert (a + c)[1..] == a[1..] + c;
      LeadingNewlinesAppend(a[1..], c);
    }
  }

  /** No run of newlines reaches past the end of a text that does not end in
      one, so such a text collapses on its own. */
  lemma {:induction false} CollapseAppend(a: string, c: string)
    requires EndsOutsideRun(a)
    ensures CollapseNewlines(a + c) == CollapseNewlines(a) + CollapseNewlines(c)
    decreases |a|
  {
    if a != [] {
      var k := LeadingNewlines(a);
      LeadingNewlinesAppend(a, c);
      var m := if k >= 3 then k else 1;
      var head := if k >= 3 then "\n\n" else [a[0]];
      CollapseStep(a, c, m, head);
      assert EndsOutsideRun(a[m..]) by {
        if m < |a| { assert a[m..][|a[m..]| - 1] == a[|a| - 1]; }
      }
      CollapseAppend(a[m..], c);
      calc {
        CollapseNewlines(a + c);
        head + CollapseNewlines(a[m..] + c);
        head + (CollapseNewlines(a[m..]) + CollapseNewlines(c));
        (head + CollapseNewlines(a[m..])) + CollapseNewlines(c);
        CollapseNewlines(a) + CollapseNewlines(c);
      }
    } else {
      assert a + c == c;
    }
  }

  /** The first step of the collapse scan over `a + c` is the first step
      over `a`, when `a` does not end in a newline. */
  lemma CollapseStep(a: string, c: string, m: nat, head: string)
    requires EndsOutsideRun(a) && a != [] && LeadingNewlines(a + c) == LeadingNewlines(a)
    requires m == (if LeadingNewlines(a) >= 3 then LeadingNewlines(a) else 1)
    requires head == (if LeadingNewlines(a) >= 3 then "\n\n" else [a[0]])
    ensures m < |a| || (m == |a| && LeadingNewlines(a) < 3)
    ensures CollapseNewlines(a) == head + CollapseNewlines(a[m..])
    ensures CollapseNewlines(a + c) == head + CollapseNewlines(a[m..] + c)
  {
    assert (a + c)[0] == a[0];
    assert (a + c)[m..] == a[m..] + c;
  }

  lemma {:induction false} LeadingNewlinesOfRun(k: nat, b: string)
    requires b == [] || b[0] != '\n'
    ensures LeadingNewlines(Newlines(k) + b) == k
  {
    if k > 0 {
      assert (Newlines(k) + b)[1..] == Newlines(k - 1) + b;
      LeadingNewlinesOfRun(k - 1, b);
    } else {
      assert Newlines(k) + b == b;
    }
  }

  /** What the collapse makes of a run of `k` newlines. */
  function RunImage(k: nat): string {
    if k >= 3 then Newlines(2) else Newlines(k)
  }

  /** A newline in front of text with fewer than two leading newlines is kept. */
  lemma CollapseNewlineFront(t: string)
    requires LeadingNewlines(t) < 2
    ensures CollapseNewlines(['\n'] + t) == ['\n'] + CollapseNewlines(t)
  {
    ConsLeading('\n', t);
    assert (['\n'] + t)[1..] == t;
  }

  /** A run of three or more newlines at the start becomes two. */
  lemma CollapseLongRun(k: nat, b: string)
    requires k >= 3 && (b == [] || b[0] != '\n')
    ensures CollapseNewlines(Newlines(k) + b) == Newlines(2) + CollapseNewlines(b)
  {
    var s := Newlines(k) + b;
    LeadingNewlinesOfRun(k, b);
    assert s[k..] == b;
    assert Newlines(2) == "\n\n";
  }

  /** One newline at the start is kept. */
  lemma CollapseOneNewline(b: string)
    requires b == [] || b[0] != '\n'
    ensures CollapseNewlines(['\n'] + b) == ['\n'] + CollapseNewlines(b)
  {
    assert LeadingNewlines(b) == 0;
    CollapseNewlineFront(b);
  }

  /** Two newlines at the start are kept. */
  lemma CollapseTwoNewlines(b: string)
    requires b == [] || b[0] != '\n'
    ensures CollapseNewlines(['\n', '\n'] + b) == ['\n', '\n'] + CollapseNewlines(b)
  {
    var one := ['\n'] + b;
    CollapseOneNewline(b);
    ConsLeading('\n', b);
    assert LeadingNewlines(b) == 0;
    CollapseNewlineFront(one);
    assert ['\n'] + ['\n'] == ['\n', '\n'];
    ConcatAssoc(['\n'], ['\n'], b);
    ConcatAssoc(['\n'], ['\n'], CollapseNewlines(b));
  }

  /** One or two newlines at the start are kept. */
  lemma CollapseShortRun(k: nat, b: string)
    requires 1 <= k <= 2 && (b == [] || b[0] != '\n')
    ensures CollapseNewlines(Newlines(k) + b) == Newlines(k) + CollapseNewlines(b)
  {
    if k == 1 {
      assert Newlines(k) == ['\n'];
      CollapseOneNewline(b);
    } else {
      assert Newlines(k) == ['\n', '\n'];
      CollapseTwoNewlines(b);
    }
  }

  /** A leading run of three or more newlines becomes two; one of one or two is kept. */
  lemma CollapseLeadingRun(k: nat, b: string)
    requires b == [] || b[0] != '\n'
    ensures CollapseNewlines(Newlines(k) + b) == RunImage(k) + CollapseNewlines(b)
  {
    if k >= 3 {
      CollapseLongRun(k, b);
    } else if k == 0 {
      assert Newlines(k) + b == b;
    } else {
      CollapseShortRun(k, b);
    }
  }

  /** Every maximal run of newlines is treated on its own: three or more
      become exactly two, and one or two are kept as they are. */
  lemma CollapseRun(a: string, k: nat, b: string)
    requires EndsOutsideRun(a) && (b == [] || b[0] != '\n')
    ensures CollapseNewlines(a + Newlines(k) + b) == CollapseNewlines(a) + RunImage(k) + CollapseNewlines(b)
  {
    var c := Newlines(k) + b;
    ConcatAssoc(a, Newlines(k), b);
    CollapseAppend(a, c);
    CollapseLeadingRun(k, b);
    ConcatAssoc(CollapseNewlines(a), RunImage(k), CollapseNewlines(b));
  }

  /** `main_content_tag.get_text(separator='\n', strip=True)`, collapsed; `''`
      when no candidate element exists. */
  function MainText(roots: seq<Node>): string {
    match MainContentTag(roots)
    case None => ""
    case Some(n) => CollapseNewlines(GetTextStripped(n.children, "\n"))
  }

  /** A prefix of collapsed text is collapsed. */
  lemma CollapsedPrefix(s: string, n: nat)
    requires Collapsed(s) && n <= |s|
    ensures Collapsed(s[..n])
  {
    var c := s[..n];
    forall i | 0 <= i <= |c| - 3
      ensures !OccursAt(c, i, "\n\n\n")
    {
      assert c[i..i + 3] == s[i..i + 3];
      assert !OccursAt(s, i, "\n\n\n");
    }
  }

  /** The main text as returned, `main_content[:16000]`: bounded, a prefix of
      the collapsed text, and still free of runs of three newlines. */
  lemma MainContentBounded(roots: seq<Node>)
    ensures var c := Take(MainText(roots), MaxLlmContentLength);
            |c| <= MaxLlmContentLength && c == MainText(roots)[..|c|] && Collapsed(c)
  {
    var full := MainText(roots);
    var c := Take(full, MaxLlmContentLength);
    match MainContentTag(roots)
    case None =>
      assert full == "";
    case Some(n) =>
      CollapseNewlinesCollapsed(GetTextStripped(n.children, "\n"));
      CollapsedPrefix(full, |c|);
  }

  /** `soup.get_text()`: all remaining strings, concatenated. */
  function BodyText(roots: seq<Node>): string {
    Concat(Strings(roots))
  }

  /** The cleaned main text and the text searched for contacts depend only on
      what lies outside the removed subtrees. */
  lemma CleanedTextIgnoresRemoved(t1: seq<Node>, t2: seq<Node>)
    requires SameOutside(t1, t2, RemovedTags)
    ensures MainText(RemoveTags(t1, RemovedTags)) == MainText(RemoveTags(t2, RemovedTags))
    ensures BodyText(RemoveTags(t1, RemovedTags)) == BodyText(RemoveTags(t2, RemovedTags))
  {
    RemoveTagsIgnoresRemoved(t1, t2, RemovedTags);
  }

  // ---------------------------------------------------------------------------
  // Contacts

  /** One match of the phone pattern: the whole number and the text of its one
      capture group (the optional country code), when that group took part. */
  datatype PhoneMatch = PhoneMatch(number: string, countryCode: Option<string>)

  /** The text of the one group of a match: `''` when the group did not take part. */
  function Group(m: PhoneMatch): string {
    if m.countryCode.Some? then m.countryCode.value else ""
  }

  /** `re.findall` with one capture group yields the group's text, or `''`
      when the group did not take part, never the whole match. */
  function PhoneFindall(ms: seq<PhoneMatch>): (r: seq<string>)
    ensures |r| == |ms|
    ensures forall k :: 0 <= k < |ms| ==> r[k] == Group(ms[k])
  {
    seq(|ms|, k requires 0 <= k < |ms| => Group(ms[k]))
  }

  function Elements(xs: seq<string>): set<string> {
    set k | 0 <= k < |xs| :: xs[k]
  }

  predicate NoDuplicates(xs: seq<string>) {
    forall i, j :: 0 <= i < j < |xs| ==> xs[i] != xs[j]
  }

  /** `xs` lists each element of `s` exactly once, in some order. */
  ghost predicate ListsSet(xs: seq<string>, s: set<string>) {
    NoDuplicates(xs) && forall x :: x in xs <==> x in s
  }

  /** `list(s)` for a set: its elements once each, in an order the model
      leaves open (for strings it follows hashing, which varies per process). */
  method ListOfSet(s: set<string>) returns (xs: seq<string>)
    ensures ListsSet(xs, s)
    ensures |xs| == |s|
  {
    xs := [];
    var rest := s;
    while rest != {}
      invariant rest <= s
      invariant forall x :: x in s <==> x in rest || x in xs
      invariant forall x :: x in rest ==> x !in xs
      invariant NoDuplicates(xs)
      invariant |xs| + |rest| == |s|
      decreases rest
    {
      var x :| x in rest;
      xs := xs + [x];
      rest := rest - {x};
    }
  }

  // ---------------------------------------------------------------------------
  // Social links

  datatype Platform = LinkedIn | Twitter | Facebook | Instagram

  /** The platforms in the order the scraper tries them. */
  const Platforms: seq<Platform> := [LinkedIn, Twitter, Facebook, Instagram]

  /** The key under which a platform's link is reported. */
  function Key(p: Platform): (k: string)
    ensures k in {"linkedin", "twitter", "facebook", "instagram"}
  {
    match p
    case LinkedIn => "linkedin"
    case Twitter => "twitter"
    case Facebook => "facebook"
    case Instagram => "instagram"
  }

  /** The characters a profile handle may use, compared case-insensitively. */
  predicate HandleChar(p: Platform, c: char) {
    var f := FoldChar(c);
    || ('a' <= f <= 'z') || ('0' <= f <= '9') || f == '_'
    || (match p
        case LinkedIn => f == '-'
        case Twitter => false
        case Facebook => f == '.' || f == '-'
        case Instagram => f == '.')
  }

  /** Length of the longest run of handle characters starting at `i`. */
  function HandleRun(p: Platform, t: string, i: nat): (n: nat)
    requires i <= |t|
    ensures i + n <= |t|
    ensures forall k :: i <= k < i + n ==> HandleChar(p, t[k])
    ensures i + n < |t| ==> !HandleChar(p, t[i + n])
    decreases |t| - i
  {
    if i < |t| && HandleChar(p, t[i]) then 1 + HandleRun(p, t, i + 1) else 0
  }

  /** The first of the alternatives `alts` that occurs at `k`, tried in
      order as the regex engine tries an alternation or an optional part:
      where it ends. */
  function FirstOf(alts: seq<string>, t: string, k: nat): (r: Option<nat>)
    ensures r.Some? ==> k <= r.value <= |t|
  {
    if alts == [] then None
    else if OccursAtCI(t, k, alts[0]) then Some(k + |alts[0]|)
    else FirstOf(alts[1..], t, k)
  }

  /** The alternation takes the first alternative that occurs, and fails
      exactly when none does. */
  lemma {:induction false} FirstOfSpec(alts: seq<string>, t: string, k: nat)
    ensures FirstOf(alts, t, k).Some? ==>
              exists c :: 0 <= c < |alts| && OccursAtCI(t, k, alts[c]) && FirstOf(alts, t, k).value == k + |alts[c]| &&
                          forall d :: 0 <= d < c ==> !OccursAtCI(t, k, alts[d])
    ensures FirstOf(alts, t, k).None? <==> forall c :: 0 <= c < |alts| ==> !OccursAtCI(t, k, alts[c])
  {
    if alts != [] && !OccursAtCI(t, k, alts[0]) {
      FirstOfSpec(alts[1..], t, k);
      assert forall c :: 1 <= c < |alts| ==> alts[c] == alts[1..][c - 1];
      if FirstOf(alts, t, k).Some? {
        var c :| 0 <= c < |alts[1..]| && OccursAtCI(t, k, alts[1..][c]) && FirstOf(alts, t, k).value == k + |alts[1..][c]| &&
                 forall d :: 0 <= d < c ==> !OccursAtCI(t, k, alts[1..][d]);
        assert forall d :: 0 <= d < c + 1 ==> !OccursAtCI(t, k, alts[d]) by {
          forall d | 0 <= d < c + 1 ensures !OccursAtCI(t, k, alts[d]) {
            if d > 0 { assert alts[d] == alts[1..][d - 1]; }
          }
        }
      }
    }
  }

  /** The alternative an alternation that succeeds takes. */
  lemma {:induction false} FirstOfChoice(alts: seq<string>, t: string, k: nat) returns (c: nat)
    requires FirstOf(alts, t, k).Some?
    ensures c < |alts| && OccursAtCI(t, k, alts[c]) && FirstOf(alts, t, k) == Some(k + |alts[c]|)
  {
    if OccursAtCI(t, k, alts[0]) {
      c := 0;
    } else {
      var c' := FirstOfChoice(alts[1..], t, k);
      c := c' + 1;
    }
  }

  /** When the alternative at `c` occurs at `k` and none before it does,
      the alternation takes it. */
  lemma {:induction false} FirstOfForced(alts: seq<string>, t: string, k: nat, c: nat)
    requires c < |alts| && OccursAtCI(t, k, alts[c])
    requires forall d :: 0 <= d < c ==> !OccursAtCI(t, k, alts[d])
    ensures FirstOf(alts, t, k) == Some(k + |alts[c]|)
  {
    if c > 0 {
      assert !OccursAtCI(t, k, alts[0]);
      assert forall d :: 0 <= d < c - 1 ==> alts[1..][d] == alts[d + 1];
      FirstOfForced(alts[1..], t, k, c - 1);
    }
  }

  /** `https?://`: the greedy `s?` tries the longer scheme first. */
  const Schemes: seq<string> := ["https://", "http://"]

  /** `(www\.)?`: the greedy `?` tries `www.` first. */
  const WwwParts: seq<string> := ["www.", ""]

  /** The texts the site part of a platform's pattern matches:
      `linkedin\.com/company/`, `(twitter|x)\.com/`, `facebook\.com/` and
      `instagram\.com/`. */
  function Sites(p: Platform): seq<string> {
    match p
    case LinkedIn => ["linkedin.com/company/"]
    case Twitter => ["twitter.com/", "x.com/"]
    case Facebook => ["facebook.com/"]
    case Instagram => ["instagram.com/"]
  }

  /** Both schemes are at least seven characters; they differ at index 4. */
  lemma SchemesShape()
    ensures forall a :: 0 <= a < |Schemes| ==> |Schemes[a]| >= 7
    ensures Schemes[0][4] != Schemes[1][4]
  {
  }

  /** At most one scheme occurs at a position. */
  lemma SchemesExclusive(t: string, i: nat, a: nat, d: nat)
    requires a < |Schemes| && d < |Schemes| && OccursAtCI(t, i, Schemes[a]) && OccursAtCI(t, i, Schemes[d])
    ensures a == d
  {
    SchemesShape();
  }

  /** Every site text is non-empty and starts with a letter other than `w`,
      and no two site texts of a platform start with the same letter. */
  lemma SitesShape(p: Platform)
    ensures forall c :: 0 <= c < |Sites(p)| ==> Sites(p)[c] != [] && Sites(p)[c][0] != 'w'
    ensures forall c, d :: 0 <= c < d < |Sites(p)| ==> Sites(p)[c][0] != Sites(p)[d][0]
  {
  }

  /** At most one site text of a platform occurs at a position. */
  lemma SitesExclusive(p: Platform, t: string, k: nat, c: nat, d: nat)
    requires c < |Sites(p)| && d < |Sites(p)| && OccursAtCI(t, k, Sites(p)[c]) && OccursAtCI(t, k, Sites(p)[d])
    ensures c == d
  {
    SitesShape(p);
  }

  /** No scheme before an occurring one occurs. */
  lemma NoEarlierScheme(t: string, i: nat, a: nat)
    requires a < |Schemes| && OccursAtCI(t, i, Schemes[a])
    ensures forall d :: 0 <= d < a ==> !OccursAtCI(t, i, Schemes[d])
  {
    forall d | 0 <= d < a ensures !OccursAtCI(t, i, Schemes[d]) {
      if OccursAtCI(t, i, Schemes[d]) { SchemesExclusive(t, i, a, d); }
    }
  }

  /** No site text before an occurring one occurs. */
  lemma NoEarlierSite(p: Platform, t: string, k: nat, c: nat)
    requires c < |Sites(p)| && OccursAtCI(t, k, Sites(p)[c])
    ensures forall d :: 0 <= d < c ==> !OccursAtCI(t, k, Sites(p)[d])
  {
    forall d | 0 <= d < c ensures !OccursAtCI(t, k, Sites(p)[d]) {
      if OccursAtCI(t, k, Sites(p)[d]) { SitesExclusive(p, t, k, c, d); }
    }
  }

  /** A site text cannot also be read as `www.`. */
  lemma NoWwwBeforeSite(p: Platform, t: string, j: nat, c: nat)
    requires c < |Sites(p)| && OccursAtCI(t, j, Sites(p)[c])
    ensures !OccursAtCI(t, j, WwwParts[0])
  {
    SitesShape(p);
    assert FoldChar(t[j + 0]) == Sites(p)[c][0];
    assert WwwParts[0][0] == 'w';
  }

  /** End of the match of `<schemes><wwws><sites><handle>+` starting at `i`,
      case-insensitively, as the greedy engine finds it: each of the three
      alternations takes the first alternative that occurs, and the run of
      handle characters is taken whole. */
  function PatternEnd(schemes: seq<string>, wwws: seq<string>, sites: seq<string>,
                      p: Platform, t: string, i: nat): (r: Option<nat>)
    ensures r.Some? ==> i < r.value <= |t|
  {
    match FirstOf(schemes, t, i)
    case None => None
    case Some(j) =>
      match FirstOf(wwws, t, j)
      case None => None
      case Some(k) =>
        match FirstOf(sites, t, k)
        case None => None
        case Some(h) =>
          var n := HandleRun(p, t, h);
          if n == 0 then None else Some(h + n)
  }

  /** `t[i..e]` is the scheme, the `www.` part and the site text given,
      followed by a non-empty run of handle characters. */
  predicate MatchVia(p: Platform, t: string, i: nat, e: nat, scheme: string, www: string, site: string) {
    var h := i + |scheme| + |www| + |site|;
    && OccursAtCI(t, i, scheme) && OccursAtCI(t, i + |scheme|, www) && OccursAtCI(t, i + |scheme| + |www|, site)
    && h < e <= |t| && forall k :: h <= k < e ==> HandleChar(p, t[k])
  }

  /** `t[i..e]` matches `<schemes><wwws><sites><handle>+` case-insensitively,
      for some choice in each alternation. */
  ghost predicate PatternMatch(schemes: seq<string>, wwws: seq<string>, sites: seq<string>,
                               p: Platform, t: string, i: nat, e: nat) {
    exists a, b, c :: 0 <= a < |schemes| && 0 <= b < |wwws| && 0 <= c < |sites| &&
                      MatchVia(p, t, i, e, schemes[a], wwws[b], sites[c])
  }

  /** The end the greedy engine finds is the end of a match, by the
      alternatives it took. */
  lemma PatternEndMatches(schemes: seq<string>, wwws: seq<string>, sites: seq<string>,
                          p: Platform, t: string, i: nat) returns (a: nat, b: nat, c: nat)
    requires PatternEnd(schemes, wwws, sites, p, t, i).Some?
    ensures a < |schemes| && b < |wwws| && c < |sites|
    ensures MatchVia(p, t, i, PatternEnd(schemes, wwws, sites, p, t, i).value, schemes[a], wwws[b], sites[c])
  {
    a := FirstOfChoice(schemes, t, i);
    var j := i + |schemes[a]|;
    b := FirstOfChoice(wwws, t, j);
    var k := j + |wwws[b]|;
    c := FirstOfChoice(sites, t, k);
    var h := k + |sites[c]|;
    var n := HandleRun(p, t, h);
    assert PatternEnd(schemes, wwws, sites, p, t, i) == Some(h + n);
  }

  /** A match whose alternatives are each the first that occurs ends no
      later than the end the greedy engine finds, since the handle run is
      taken whole. */
  lemma PatternEndLongest(schemes: seq<string>, wwws: seq<string>, sites: seq<string>,
                          p: Platform, t: string, i: nat, e: nat, a: nat, b: nat, c: nat)
    requires a < |schemes| && b < |wwws| && c < |sites|
    requires MatchVia(p, t, i, e, schemes[a], wwws[b], sites[c])
    requires forall d :: 0 <= d < a ==> !OccursAtCI(t, i, schemes[d])
    requires forall d :: 0 <= d < b ==> !OccursAtCI(t, i + |schemes[a]|, wwws[d])
    requires forall d :: 0 <= d < c ==> !OccursAtCI(t, i + |schemes[a]| + |wwws[b]|, sites[d])
    ensures PatternEnd(schemes, wwws, sites, p, t, i).Some? && e <= PatternEnd(schemes, wwws, sites, p, t, i).value
  {
    var j := i + |schemes[a]|;
    var k := j + |wwws[b]|;
    var h := k + |sites[c]|;
    FirstOfForced(schemes, t, i, a);
    FirstOfForced(wwws, t, j, b);
    FirstOfForced(sites, t, k, c);
    assert HandleChar(p, t[h]);
  }

  /** End of the match of `https?://(www\.)?<site><handle>+` starting at `i`,
      case-insensitively, as `re.search` finds it. */
  function MatchEnd(p: Platform, t: string, i: nat): (r: Option<nat>)
    ensures r.Some? ==> i < r.value <= |t|
  {
    PatternEnd(Schemes, WwwParts, Sites(p), p, t, i)
  }

  /** `t[i..e]` matches a platform's profile-link pattern. */
  ghost predicate LinkMatch(p: Platform, t: string, i: nat, e: nat) {
    PatternMatch(Schemes, WwwParts, Sites(p), p, t, i, e)
  }

  /** The pattern matches at `i` exactly when `MatchEnd` finds an end, and
      that end is the longest match there. */
  lemma MatchEndSpec(p: Platform, t: string, i: nat)
    ensures MatchEnd(p, t, i).Some? ==> LinkMatch(p, t, i, MatchEnd(p, t, i).value)
    ensures forall e: nat :: LinkMatch(p, t, i, e) ==> MatchEnd(p, t, i).Some? && e <= MatchEnd(p, t, i).value
  {
    if MatchEnd(p, t, i).Some? {
      var a, b, c := PatternEndMatches(Schemes, WwwParts, Sites(p), p, t, i);
    }
    MatchEndLongest(p, t, i);
  }

  /** No match at `i` ends after the end `MatchEnd` finds. */
  lemma MatchEndLongest(p: Platform, t: string, i: nat)
    ensures forall e: nat :: LinkMatch(p, t, i, e) ==> MatchEnd(p, t, i).Some? && e <= MatchEnd(p, t, i).value
  {
    forall e: nat | LinkMatch(p, t, i, e)
      ensures MatchEnd(p, t, i).Some? && e <= MatchEnd(p, t, i).value
    {
      var a, b, c :| 0 <= a < |Schemes| && 0 <= b < |WwwParts| && 0 <= c < |Sites(p)| &&
                     MatchVia(p, t, i, e, Schemes[a], WwwParts[b], Sites(p)[c]);
      MatchViaBound(p, t, i, e, a, b, c);
    }
  }

  /** Any match at `i` ends no later than the end `MatchEnd` finds: at most
      one scheme and one site text occur at a position, and `www.` cannot
      be skipped in front of a site text. */
  lemma MatchViaBound(p: Platform, t: string, i: nat, e: nat, a: nat, b: nat, c: nat)
    requires a < |Schemes| && b < |WwwParts| && c < |Sites(p)|
    requires MatchVia(p, t, i, e, Schemes[a], WwwParts[b], Sites(p)[c])
    ensures MatchEnd(p, t, i).Some? && e <= MatchEnd(p, t, i).value
  {
    GreedyChoices(p, t, i, a, b, c);
    PatternEndLongest(Schemes, WwwParts, Sites(p), p, t, i, e, a, b, c);
  }

  /** The scheme, `www.` part and site text of a match are each the first
      alternative that occurs where it starts. */
  lemma GreedyChoices(p: Platform, t: string, i: nat, a: nat, b: nat, c: nat)
    requires a < |Schemes| && b < |WwwParts| && c < |Sites(p)|
    requires OccursAtCI(t, i, Schemes[a]) && OccursAtCI(t, i + |Schemes[a]|, WwwParts[b]) &&
             OccursAtCI(t, i + |Schemes[a]| + |WwwParts[b]|, Sites(p)[c])
    ensures forall d :: 0 <= d < a ==> !OccursAtCI(t, i, Schemes[d])
    ensures forall d :: 0 <= d < b ==> !OccursAtCI(t, i + |Schemes[a]|, WwwParts[d])
    ensures forall d :: 0 <= d < c ==> !OccursAtCI(t, i + |Schemes[a]| + |WwwParts[b]|, Sites(p)[d])
  {
    var j := i + |Schemes[a]|;
    NoEarlierScheme(t, i, a);
    if b == 1 {
      NoWwwBeforeSite(p, t, j, c);
    }
    NoEarlierSite(p, t, j + |WwwParts[b]|, c);
  }

  /** `re.search` over a text of length `n`, given where a match starting at
      each position ends: the leftmost start at or after `i`, with its end. */
  function SearchFrom(m: nat -> Option<nat>, n: nat, i: nat): (r: Option<(nat, nat)>)
    requires i <= n
    ensures r.Some? ==> i <= r.value.0 <= n && m(r.value.0) == Some(r.value.1)
    ensures r.Some? ==> forall j :: i <= j < r.value.0 ==> m(j).None?
    ensures r.None? ==> forall j :: i <= j <= n ==> m(j).None?
    decreases n - i
  {
    match m(i)
    case Some(e) => Some((i, e))
    case None => if i == n then None else SearchFrom(m, n, i + 1)
  }

  /** Where a match of the platform's pattern starting at each position ends. */
  function Matcher(p: Platform, t: string): nat -> Option<nat> {
    j => MatchEnd(p, t, j)
  }

  /** `match.group(0)` of the search for a platform's profile link, if any. */
  function FirstLink(p: Platform, t: string): Option<string> {
    match SearchFrom(Matcher(p, t), |t|, 0)
    case None => None
    case Some((s, e)) =>
      assert MatchEnd(p, t, s) == Some(e);
      Some(t[s..e])
  }

  /** The links gathered by trying the platforms `ps` in order, where
      `found` gives each platform's link if it has one: each platform with a
      link adds its key and that link. */
  function Gather(ps: seq<Platform>, found: Platform -> Option<string>): map<string, string>
    decreases |ps|
  {
    if ps == [] then map[]
    else
      var links := Gather(ps[..|ps| - 1], found);
      var p := ps[|ps| - 1];
      match found(p)
      case None => links
      case Some(v) => links[Key(p) := v]
  }

  /** The links gathered from the text `t`: each platform contributes the
      text of its leftmost match. */
  function LinksOver(ps: seq<Platform>, t: string): map<string, string> {
    Gather(ps, p => FirstLink(p, t))
  }

  /** The links the scraper reports. */
  function SocialLinks(t: string): map<string, string> {
    LinksOver(Platforms, t)
  }

  /** A platform's link is found exactly when its pattern matches somewhere;
      it is then the text of the leftmost match, which begins with `http://`
      or `https://` in some mix of cases. */
  lemma FirstLinkLeftmost(p: Platform, t: string)
    ensures FirstLink(p, t).Some? <==> exists s :: 0 <= s <= |t| && MatchEnd(p, t, s).Some?
    ensures FirstLink(p, t).Some? ==>
              exists s, e :: 0 <= s < e <= |t| && MatchEnd(p, t, s) == Some(e) &&
                             (forall j :: 0 <= j < s ==> MatchEnd(p, t, j).None?) &&
                             FirstLink(p, t).value == t[s..e]
    ensures FirstLink(p, t).Some? ==>
              exists a :: 0 <= a < |Schemes| && OccursAtCI(FirstLink(p, t).value, 0, Schemes[a])
  {
    var m := Matcher(p, t);
    var r := SearchFrom(m, |t|, 0);
    if r.Some? {
      var (s, e) := r.value;
      assert MatchEnd(p, t, s) == Some(e) by { assert m(s) == MatchEnd(p, t, s); }
      assert forall j :: 0 <= j < s ==> m(j) == MatchEnd(p, t, j);
      LinkScheme(p, t, s, e);
    } else {
      assert forall j :: 0 <= j <= |t| ==> m(j) == MatchEnd(p, t, j);
    }
  }

  /** The text of a match begins with its scheme. */
  lemma LinkScheme(p: Platform, t: string, s: nat, e: nat)
    requires MatchEnd(p, t, s) == Some(e)
    ensures exists a :: 0 <= a < |Schemes| && OccursAtCI(t[s..e], 0, Schemes[a])
  {
    MatchEndSpec(p, t, s);
    var a, b, c :| 0 <= a < |Schemes| && 0 <= b < |WwwParts| && 0 <= c < |Sites(p)| &&
                   MatchVia(p, t, s, e, Schemes[a], WwwParts[b], Sites(p)[c]);
    OccursAtCISlice(t, s, e, Schemes[a]);
  }

  /** `re.search`'s answer in terms of the pattern itself: a link is found
      exactly when some part of the text matches, and it is then the longest
      match at the leftmost position where one starts. */
  lemma FirstLinkLeftmostLongest(p: Platform, t: string)
    ensures FirstLink(p, t).Some? <==> exists s: nat, e: nat :: LinkMatch(p, t, s, e)
    ensures FirstLink(p, t).Some? ==>
              exists s: nat, e: nat :: LinkMatch(p, t, s, e) && FirstLink(p, t).value == t[s..e] &&
                                       (forall j: nat, f: nat :: j < s ==> !LinkMatch(p, t, j, f)) &&
                                       (forall f: nat :: LinkMatch(p, t, s, f) ==> f <= e)
  {
    FirstLinkLeftmost(p, t);
    if FirstLink(p, t).Some? {
      var s: nat, e: nat :| 0 <= s < e <= |t| && MatchEnd(p, t, s) == Some(e) &&
                            (forall j :: 0 <= j < s ==> MatchEnd(p, t, j).None?) &&
                            FirstLink(p, t).value == t[s..e];
      LeftmostLongestAt(p, t, s, e);
    } else {
      NoLinkMatch(p, t);
    }
  }

  /** The greedy search's first hit is the longest match at the leftmost start. */
  lemma LeftmostLongestAt(p: Platform, t: string, s: nat, e: nat)
    requires MatchEnd(p, t, s) == Some(e)
    requires forall j :: 0 <= j < s ==> MatchEnd(p, t, j).None?
    ensures LinkMatch(p, t, s, e)
    ensures forall j: nat, f: nat :: j < s ==> !LinkMatch(p, t, j, f)
    ensures forall f: nat :: LinkMatch(p, t, s, f) ==> f <= e
  {
    MatchEndSpec(p, t, s);
    forall j: nat, f: nat | j < s ensures !LinkMatch(p, t, j, f) {
      MatchEndSpec(p, t, j);
    }
  }

  /** Where the search matches nowhere, the pattern matches nowhere. */
  lemma NoLinkMatch(p: Platform, t: string)
    requires forall s :: 0 <= s <= |t| ==> MatchEnd(p, t, s).None?
    ensures forall s: nat, e: nat :: !LinkMatch(p, t, s, e)
  {
    forall s: nat, e: nat ensures !LinkMatch(p, t, s, e) {
      MatchEndSpec(p, t, s);
    }
  }

  predicate DistinctKeys(ps: seq<Platform>) {
    forall i, j :: 0 <= i < j < |ps| ==> Key(ps[i]) != Key(ps[j])
  }

  /** Every gathered key belongs to one of the platforms tried. */
  lemma {:induction false} GatherKeys(ps: seq<Platform>, found: Platform -> Option<string>)
    ensures forall k :: k in Gather(ps, found) ==> exists i :: 0 <= i < |ps| && Key(ps[i]) == k
    decreases |ps|
  {
    if ps != [] {
      var init := ps[..|ps| - 1];
      GatherKeys(init, found);
      forall k | k in Gather(ps, found)
        ensures exists i :: 0 <= i < |ps| && Key(ps[i]) == k
      {
        if k != Key(ps[|ps| - 1]) {
          assert k in Gather(init, found);
          var i :| 0 <= i < |init| && Key(init[i]) == k;
          assert ps[i] == init[i];
        }
      }
    }
  }

  /** Gathering over platforms with distinct keys yields one entry per
      platform that has a link, holding that link, and nothing else. */
  lemma {:induction false} GatherEntries(ps: seq<Platform>, found: Platform -> Option<string>)
    requires DistinctKeys(ps)
    ensures forall k :: k in Gather(ps, found) ==> exists i :: 0 <= i < |ps| && Key(ps[i]) == k
    ensures forall i :: 0 <= i < |ps| ==>
              (Key(ps[i]) in Gather(ps, found) <==> found(ps[i]).Some?) &&
              (Key(ps[i]) in Gather(ps, found) ==> Gather(ps, found)[Key(ps[i])] == found(ps[i]).value)
    decreases |ps|
  {
    GatherKeys(ps, found);
    if ps != [] {
      var init := ps[..|ps| - 1];
      var last := ps[|ps| - 1];
      var links := Gather(init, found);
      var whole := Gather(ps, found);
      assert DistinctKeys(init);
      GatherEntries(init, found);
      assert found(last).None? ==> whole == links;
      assert found(last).Some? ==> whole == links[Key(last) := found(last).value];
      forall i | 0 <= i < |ps|
        ensures (Key(ps[i]) in whole <==> found(ps[i]).Some?) &&
                (Key(ps[i]) in whole ==> whole[Key(ps[i])] == found(ps[i]).value)
      {
        if i < |ps| - 1 {
          assert ps[i] == init[i];
          assert Key(ps[i]) != Key(last);
          assert Key(init[i]) in links <==> found(init[i]).Some?;
        } else if found(last).None? {
          assert Key(last) !in links;
        }
      }
    }
  }

  /** Trying platforms with distinct keys yields one entry per platform whose
      pattern matches, holding that platform's first link, and nothing else. */
  lemma LinksOverEntries(ps: seq<Platform>, t: string)
    requires DistinctKeys(ps)
    ensures forall k :: k in LinksOver(ps, t) ==> exists i :: 0 <= i < |ps| && Key(ps[i]) == k
    ensures forall i :: 0 <= i < |ps| ==>
              (Key(ps[i]) in LinksOver(ps, t) <==> FirstLink(ps[i], t).Some?) &&
              (Key(ps[i]) in LinksOver(ps, t) ==> LinksOver(ps, t)[Key(ps[i])] == FirstLink(ps[i], t).value)
  {
    GatherEntries(ps, p => FirstLink(p, t));
  }

  /** The reported links are keyed by platform name, one per platform whose
      pattern matches, with that platform's first link as the value. */
  lemma SocialLinksEntries(t: string)
    ensures forall k :: k in SocialLinks(t) ==> k in {"linkedin", "twitter", "facebook", "instagram"}
    ensures forall p :: p in Platforms ==>
              (Key(p) in SocialLinks(t) <==> FirstLink(p, t).Some?) &&
              (Key(p) in SocialLinks(t) ==> SocialLinks(t)[Key(p)] == FirstLink(p, t).value)
  {
    assert DistinctKeys(Platforms);
    LinksOverEntries(Platforms, t);
    forall p | p in Platforms
      ensures (Key(p) in SocialLinks(t) <==> FirstLink(p, t).Some?) &&
              (Key(p) in SocialLinks(t) ==> SocialLinks(t)[Key(p)] == FirstLink(p, t).value)
    {
      var i :| 0 <= i < |Platforms| && Platforms[i] == p;
    }
  }

  /** Each platform is tried once, so when the loop reaches it its key is not
      yet among the links. */
  lemma KeyNotYetCollected(i: nat, t: string)
    requires i < |Platforms|
    ensures Key(Platforms[i]) !in LinksOver(Platforms[..i], t)
  {
    var init := Platforms[..i];
    assert DistinctKeys(Platforms);
    assert DistinctKeys(init);
    LinksOverEntries(init, t);
    forall j | 0 <= j < |init|
      ensures Key(init[j]) != Key(Platforms[i])
    {
      assert init[j] == Platforms[j];
    }
  }

  /** One more platform adds its link, if it has one, under its key. */
  lemma LinksOverStep(i: nat, t: string)
    requires i < |Platforms|
    ensures LinksOver(Platforms[..i + 1], t) ==
              if FirstLink(Platforms[i], t).Some? then LinksOver(Platforms[..i], t)[Key(Platforms[i]) := FirstLink(Platforms[i], t).value]
              else LinksOver(Platforms[..i], t)
  {
    assert Platforms[..i + 1][..i] == Platforms[..i];
  }

  /** The loop over the platform patterns that fills `social_links`. */
  method CollectSocialLinks(raw: string) returns (links: map<string, string>)
    ensures links == SocialLinks(raw)
  {
    links := map[];
    for i := 0 to |Platforms|
      invariant links == LinksOver(Platforms[..i], raw)
    {
      var platform := Platforms[i];
      var found := FirstLink(platform, raw);
      LinksOverStep(i, raw);
      KeyNotYetCollected(i, raw);
      if found.Some? && Key(platform) !in links {
        links := links[Key(platform) := found.value];
      }
    }
    assert Platforms[..|Platforms|] == Platforms;
  }

  // ---------------------------------------------------------------------------
  // The whole scrape

  /** `d` is what a successful scrape of `url` reports when the response body
      `raw` parses to `tree` and the e-mail and phone patterns match as given. */
  ghost predicate ScrapedFrom(d: ScrapedData, url: string, raw: string, tree: seq<Node>,
                              emailMatches: string -> seq<string>, phoneMatches: string -> seq<PhoneMatch>)
  {
    var cleaned := RemoveTags(tree, RemovedTags);
    var body := BodyText(cleaned);
    && d.url == url
    && d.metadata == Metadata(PageTitle(tree), PageDescription(tree))
    && d.mainContent == Take(MainText(cleaned), MaxLlmContentLength)
    && ContactsFrom(d.contact, body, raw, emailMatches, phoneMatches)
  }

  /** The contact signals: e-mails and phone groups found in the cleaned text
      `body`, each listed once, and social links found in the raw body. */
  ghost predicate ContactsFrom(c: ContactData, body: string, raw: string,
                               emailMatches: string -> seq<string>, phoneMatches: string -> seq<PhoneMatch>)
  {
    && ListsSet(c.emails, Elements(emailMatches(body)))
    && ListsSet(c.phones, Elements(PhoneFindall(phoneMatches(body))))
    && c.socialLinks == SocialLinks(raw)
  }

  /** `scrape_homepage_content`: a transport failure and every other failure
      (a non-2xx status among them) give their fixed messages and no partial
      result; otherwise metadata is read before the clean-up, and the main
      text and contacts after it, while social links come from the raw body. */
  method Scrape(url: string, fetched: FetchOutcome, parse: string -> seq<Node>,
                emailMatches: string -> seq<string>, phoneMatches: string -> seq<PhoneMatch>)
    returns (r: Result<ScrapedData, string>)
    ensures fetched.RequestError? ==> r == Failure(FetchFailedMessage)
    ensures fetched.Response? && !IsSuccess(fetched.statusCode) ==> r == Failure(UnexpectedMessage)
    ensures fetched.Response? && IsSuccess(fetched.statusCode) && PageTitleAsWritten(parse(fetched.text)).Failure? ==>
              r == Failure(UnexpectedMessage)
    ensures fetched.Response? && IsSuccess(fetched.statusCode) && PageTitleAsWritten(parse(fetched.text)).Success? ==>
              r.Success? && ScrapedFrom(r.value, url, fetched.text, parse(fetched.text), emailMatches, phoneMatches)
  {
    if fetched.RequestError? {
      return Failure(FetchFailedMessage);
    }
    if !IsSuccess(fetched.statusCode) {
      return Failure(UnexpectedMessage);
    }
    var soup := new Soup(parse(fetched.text));
    var title := PageTitleAsWritten(soup.tree);
    if title.Failure? {
      // The `AttributeError` is caught by the generic handler.
      return Failure(UnexpectedMessage);
    }
    TitleAsWrittenAgrees(soup.tree);
    var metadata := Metadata(title.value, PageDescription(soup.tree));
    soup.DecomposeAll(RemovedTags);
    var roots := soup.Roots();
    var mainContent := MainText(roots);
    var bodyText := BodyText(roots);
    var emails := ListOfSet(Elements(emailMatches(bodyText)));
    var phones := ListOfSet(Elements(PhoneFindall(phoneMatches(bodyText))));
    var socialLinks := CollectSocialLinks(fetched.text);
    r := Success(ScrapedData(url, Take(mainContent, MaxLlmContentLength), Metadata(metadata.title, metadata.description),
                             ContactData(emails, phones, socialLinks)));
  }

  /** A listing of the groups `findall` yields holds exactly the groups of
      the matches. */
  lemma ListedGroups(xs: seq<string>, ms: seq<PhoneMatch>)
    requires ListsSet(xs, Elements(PhoneFindall(ms)))
    ensures forall x :: x in xs <==> exists k :: 0 <= k < |ms| && x == Group(ms[k])
  {
    forall x | x in xs
      ensures exists k :: 0 <= k < |ms| && x == Group(ms[k])
    {
      GroupOfListed(xs, ms, x);
    }
    forall k | 0 <= k < |ms|
      ensures Group(ms[k]) in xs
    {
      var found := PhoneFindall(ms);
      assert found[k] == Group(ms[k]);
      assert Group(ms[k]) in Elements(found);
    }
  }

  lemma GroupOfListed(xs: seq<string>, ms: seq<PhoneMatch>, x: string)
    requires ListsSet(xs, Elements(PhoneFindall(ms))) && x in xs
    ensures exists k :: 0 <= k < |ms| && x == Group(ms[k])
  {
    var found := PhoneFindall(ms);
    assert x in Elements(found);
    var k :| 0 <= k < |found| && found[k] == x;
    assert x == Group(ms[k]);
  }

  /** Every phone entry is the country-code group of some match (possibly
      `''`), and every match's group is listed once. */
  lemma PhonesAreGroups(d: ScrapedData, url: string, raw: string, tree: seq<Node>,
                        emailMatches: string -> seq<string>, phoneMatches: string -> seq<PhoneMatch>)
    requires ScrapedFrom(d, url, raw, tree, emailMatches, phoneMatches)
    ensures var ms := phoneMatches(BodyText(RemoveTags(tree, RemovedTags)));
            forall x :: x in d.contact.phones <==>
              exists k :: 0 <= k < |ms| && x == Group(ms[k])
    ensures NoDuplicates(d.contact.phones) && NoDuplicates(d.contact.emails)
  {
    var body := BodyText(RemoveTags(tree, RemovedTags));
    assert ContactsFrom(d.contact, body, raw, emailMatches, phoneMatches);
    ListedGroups(d.contact.phones, phoneMatches(body));
  }
}
