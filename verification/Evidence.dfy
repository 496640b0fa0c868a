/** Checking an analysis before it is used: quoted evidence against the text of its page, tags, and the
    ranking of the matches. */
module Evidence {
  import opened Orders

  // ----- text -----

  /** White space as the program strips it. */
  predicate IsBlank(c: char) {
    c == ' ' || c == '\t' || c == '\n' || c == '\r' || c == '\U{000B}' || c == '\U{000C}' || c == '\U{0085}'
    || c == '\U{00A0}' || c == '\U{1680}' || '\U{2000}' <= c <= '\U{200A}' || c == '\U{2028}' || c == '\U{2029}'
    || c == '\U{202F}' || c == '\U{205F}' || c == '\U{3000}'
  }

  function Stripped(s: string): string {
    if s == "" then "" else (if IsBlank(s[0]) then "" else [s[0]]) + Stripped(s[1..])
  }

  function Concat(parts: seq<string>): string { if parts == [] then "" else parts[0] + Concat(parts[1..]) }

  predicate OccursAt(s: string, q: string, i: int) { 0 <= i <= |s| - |q| && s[i..i + |q|] == q }

  predicate Contains(s: string, q: string) { exists i :: 0 <= i <= |s| && OccursAt(s, q, i) }

  /** The lines of a page. */
  function Lines(body: string): (r: seq<string>)
    ensures r != []
  {
    if body == "" then [""]
    else
      var rest := Lines(body[1..]);
      if body[0] == '\n' then [""] + rest else [[body[0]] + rest[0]] + rest[1..]
  }

  /** A line of the document with the number of its page. */
  datatype SourceLine = SourceLine(page: nat, text: string)

  function PageLines(page: nat, body: string): (r: seq<SourceLine>)
    ensures |r| == |Lines(body)| && forall i | 0 <= i < |r| :: r[i] == SourceLine(page, Lines(body)[i])
  {
    seq(|Lines(body)|, i requires 0 <= i < |Lines(body)| => SourceLine(page, Lines(body)[i]))
  }

  /** All lines of all pages, numbered through. */
  function Document(pages: seq<string>): seq<SourceLine> {
    if pages == [] then [] else Document(pages[..|pages| - 1]) + PageLines(|pages|, pages[|pages| - 1])
  }

  // ----- text on the rows -----

  /** Stripping works character by character and drops exactly the white space of Unicode. */
  lemma StripsOnRows(c: char, s: string, t: string)
    ensures Stripped(s + t) == Stripped(s) + Stripped(t)
    ensures Stripped([c]) ==
              if (c as int) in {0x9, 0xA, 0xB, 0xC, 0xD, 0x20, 0x85, 0xA0, 0x1680, 0x2028, 0x2029, 0x202F, 0x205F, 0x3000} || 0x2000 <= c as int <= 0x200A
              then "" else [c]
  {
    StrippedAppend(s, t);
    assert [c][1..] == "";
  }

  function Joined(lines: seq<string>): string {
    if lines == [] then "" else if |lines| == 1 then lines[0] else lines[0] + "\n" + Joined(lines[1..])
  }

  lemma JoinedCons(head: string, lines: seq<string>, c: char)
    ensures lines != [] ==> Joined([head] + lines) == head + "\n" + Joined(lines)
    ensures Joined([[c] + head] + lines) == [c] + Joined([head] + lines)
  {
    assert ([head] + lines)[1..] == lines && ([[c] + head] + lines)[1..] == lines;
    if lines != [] {
      assert [c] + head + "\n" + Joined(lines) == [c] + (head + "\n" + Joined(lines));
    }
  }

  predicate Unbroken(lines: seq<string>) { forall k | 0 <= k < |lines| :: '\n' !in lines[k] }

  /** A page's lines contain no line break, and joined by line breaks they are the page. */
  lemma {:induction false} LinesOnRows(body: string)
    ensures Joined(Lines(body)) == body && Unbroken(Lines(body))
  {
    if body != "" {
      LinesOnRows(body[1..]);
      var rest := Lines(body[1..]);
      assert body == [body[0]] + body[1..];
      if body[0] == '\n' {
        JoinedCons("", rest, ' ');
      } else {
        JoinedCons(rest[0], rest[1..], body[0]);
        assert [rest[0]] + rest[1..] == rest;
      }
    }
  }

  // ----- quotes -----

  datatype Quote = Quote(page: int, startLine: int, endLine: int, quote: string)

  function Texts(lines: seq<SourceLine>): (r: seq<string>)
    ensures |r| == |lines| && forall i | 0 <= i < |r| :: r[i] == lines[i].text
  {
    seq(|lines|, i requires 0 <= i < |lines| => lines[i].text)
  }

  /** What the program accepts as a verified quote. */
  predicate Verified(e: Quote, lines: seq<SourceLine>) {
    && |Stripped(e.quote)| >= 8 && 1 <= e.startLine <= e.endLine <= |lines| && e.endLine - e.startLine <= 100
    && (forall k | e.startLine - 1 <= k < e.endLine :: lines[k].page == e.page)
    && Contains(Stripped(Concat(Texts(lines[e.startLine - 1..e.endLine]))), Stripped(e.quote))
  }

  lemma {:induction false} StrippedAppend(a: string, b: string)
    ensures Stripped(a + b) == Stripped(a) + Stripped(b)
  {
    if a == "" {
      assert a + b == b;
    } else {
      assert (a + b)[1..] == a[1..] + b;
      StrippedAppend(a[1..], b);
    }
  }

  lemma {:induction false} ConcatAppend(a: seq<string>, b: seq<string>)
    ensures Concat(a + b) == Concat(a) + Concat(b)
  {
    if a == [] {
      assert a + b == b;
    } else {
      assert (a + b)[1..] == a[1..] + b;
      ConcatAppend(a[1..], b);
    }
  }

  /** Splitting a page into lines loses nothing but line breaks. */
  lemma {:induction false} LinesKeepText(body: string)
    ensures Stripped(Concat(Lines(body))) == Stripped(body)
  {
    if body != "" {
      var rest := Lines(body[1..]);
      LinesKeepText(body[1..]);
      if body[0] == '\n' {
        assert ([""] + rest)[1..] == rest && "" + Concat(rest) == Concat(rest);
      } else {
        var head := [body[0]];
        assert ([head + rest[0]] + rest[1..])[1..] == rest[1..];
        assert (head + rest[0]) + Concat(rest[1..]) == head + Concat(rest);
        assert body == head + body[1..];
        StrippedAppend(head, Concat(rest));
        StrippedAppend(head, body[1..]);
      }
    }
  }

  /** Number of lines before page p + 1. */
  function Before(pages: seq<string>, p: nat): nat
    requires p <= |pages|
  {
    |Document(pages[..p])|
  }

  /** A line with page number p is a line of page p, at the position the numbering gives. */
  lemma {:induction false} LineOfPage(pages: seq<string>, k: nat)
    requires k < |Document(pages)|
    ensures var l := Document(pages)[k];
            && 1 <= l.page <= |pages| && Before(pages, l.page - 1) <= k
            && k - Before(pages, l.page - 1) < |Lines(pages[l.page - 1])|
            && l.text == Lines(pages[l.page - 1])[k - Before(pages, l.page - 1)]
  {
    hide Lines;
    var n := |pages| - 1;
    var front := pages[..n];
    if k < |Document(front)| {
      LineOfPage(front, k);
      var p := Document(front)[k].page;
      assert front[..p - 1] == pages[..p - 1] && front[p - 1] == pages[p - 1];
    }
  }

  lemma ContainedInParts(x: string, y: string, z: string, q: string)
    requires Contains(y, q)
    ensures Contains(x + y + z, q)
  {
    var i :| 0 <= i <= |y| && OccursAt(y, q, i);
    var s := x + y + z;
    assert s[|x| + i..|x| + i + |q|] == y[i..i + |q|];
    assert OccursAt(s, q, |x| + i);
  }

  /** The selected lines are consecutive lines of the page the quote names. */
  lemma SelectedLines(pages: seq<string>, e: Quote)
    requires Verified(e, Document(pages))
    ensures 1 <= e.page <= |pages|
    ensures var from := e.startLine - 1 - Before(pages, e.page - 1);
            && 0 <= from && from + (e.endLine - e.startLine + 1) <= |Lines(pages[e.page - 1])|
            && Texts(Document(pages)[e.startLine - 1..e.endLine])
               == Lines(pages[e.page - 1])[from..from + (e.endLine - e.startLine + 1)]
  {
    hide Stripped, Contains, Document, Lines;
    var doc := Document(pages);
    LineOfPage(pages, e.startLine - 1);
    LineOfPage(pages, e.endLine - 1);
    var from := e.startLine - 1 - Before(pages, e.page - 1);
    forall k | e.startLine - 1 <= k < e.endLine
      ensures doc[k].text == Lines(pages[e.page - 1])[k - Before(pages, e.page - 1)]
    {
      LineOfPage(pages, k);
    }
  }

  /** An accepted quote really stands on its page: without white space it is a contiguous part of
      that single page, although lines are numbered across all pages. */
  lemma AcceptedQuoteIsOnPage(pages: seq<string>, e: Quote)
    requires Verified(e, Document(pages))
    ensures 1 <= e.page <= |pages| && Contains(Stripped(pages[e.page - 1]), Stripped(e.quote))
  {
    hide Stripped, Contains, Document, Lines, Before;
    SelectedLines(pages, e);
    var ls := Lines(pages[e.page - 1]);
    var from := e.startLine - 1 - Before(pages, e.page - 1);
    var to := from + (e.endLine - e.startLine + 1);
    var x, y, z := ls[..from], ls[from..to], ls[to..];
    assert ls == (x + y) + z;
    ConcatAppend(x + y, z);
    ConcatAppend(x, y);
    StrippedAppend(Concat(x) + Concat(y), Concat(z));
    StrippedAppend(Concat(x), Concat(y));
    LinesKeepText(pages[e.page - 1]);
    ContainedInParts(Stripped(Concat(x)), Stripped(Concat(y)), Stripped(Concat(z)), Stripped(e.quote));
  }

  /** Lines are numbered through all pages. */
  lemma BeforeOnRows(pages: seq<string>, p: nat)
    requires p < |pages|
    ensures Before(pages, 0) == 0 && Before(pages, p + 1) == Before(pages, p) + |Lines(pages[p])|
  {
    assert pages[..p + 1][..p] == pages[..p];
  }

  /** Line i of page p is where the numbering puts it. */
  lemma {:induction false} LineAt(pages: seq<string>, p: nat, i: nat)
    requires p < |pages| && i < |Lines(pages[p])|
    ensures Before(pages, p) + i < |Document(pages)| && Document(pages)[Before(pages, p) + i] == SourceLine(p + 1, Lines(pages[p])[i])
    decreases |pages|
  {
    var n := |pages| - 1;
    if p < n {
      LineAt(pages[..n], p, i);
      assert pages[..n][..p] == pages[..p];
    }
  }

  ghost predicate StandsIn(s: string, q: string) { exists before, after :: SplitAs(s, before, q, after) }

  predicate SplitAs(s: string, before: string, q: string, after: string) { s == before + q + after }

  lemma ContainsOnRows(s: string, q: string)
    ensures Contains(s, q) <==> StandsIn(s, q)
  {
    if Contains(s, q) {
      var i :| 0 <= i <= |s| && OccursAt(s, q, i);
      assert SplitAs(s, s[..i], q, s[i + |q|..]);
    }
    if StandsIn(s, q) {
      var before, after :| SplitAs(s, before, q, after);
      assert OccursAt(s, q, |before|);
    }
  }

  /** The quote names a page, at most 101 consecutive lines of it, and without white space it has at least
      eight characters and stands in these lines. */
  ghost predicate Genuine(pages: seq<string>, e: Quote) {
    && 1 <= e.page <= |pages| && |Stripped(e.quote)| >= 8
    && var from, to := e.startLine - 1 - Before(pages, e.page - 1), e.endLine - Before(pages, e.page - 1);
       && 0 <= from < to <= |Lines(pages[e.page - 1])| && to - from <= 101
       && StandsIn(Stripped(Concat(Lines(pages[e.page - 1])[from..to])), Stripped(e.quote))
  }

  lemma VerifiedIsGenuine(pages: seq<string>, e: Quote)
    requires Verified(e, Document(pages))
    ensures Genuine(pages, e)
  {
    hide Stripped, Lines, Before, Document, Contains, StandsIn;
    SelectedLines(pages, e);
    ContainsOnRows(Stripped(Concat(Texts(Document(pages)[e.startLine - 1..e.endLine]))), Stripped(e.quote));
  }

  /** The lines with these numbers are the page's. */
  lemma NumberedLines(pages: seq<string>, p: nat, from: nat, to: nat)
    requires p < |pages| && from < to <= |Lines(pages[p])|
    ensures Before(pages, p) + to <= |Document(pages)|
    ensures forall k | Before(pages, p) + from <= k < Before(pages, p) + to :: Document(pages)[k].page == p + 1
    ensures Texts(Document(pages)[Before(pages, p) + from..Before(pages, p) + to]) == Lines(pages[p])[from..to]
  {
    hide Lines, Before, Document;
    var start, doc := Before(pages, p), Document(pages);
    forall i | from <= i < to ensures start + i < |doc| && doc[start + i] == SourceLine(p + 1, Lines(pages[p])[i]) {
      LineAt(pages, p, i);
    }
    LineAt(pages, p, to - 1);
    forall k | start + from <= k < start + to ensures doc[k] == SourceLine(p + 1, Lines(pages[p])[k - start]) {
      assert doc[start + (k - start)] == doc[k];
    }
  }

  lemma GenuineIsVerified(pages: seq<string>, e: Quote)
    requires Genuine(pages, e)
    ensures Verified(e, Document(pages))
  {
    hide Stripped, Lines, Before, Document, Contains, StandsIn;
    var start := Before(pages, e.page - 1);
    NumberedLines(pages, e.page - 1, e.startLine - 1 - start, e.endLine - start);
    ContainsOnRows(Stripped(Concat(Texts(Document(pages)[e.startLine - 1..e.endLine]))), Stripped(e.quote));
  }

  /** Nothing else is accepted, and every such quote is. */
  lemma VerifiedExactlyWhen(pages: seq<string>, e: Quote)
    ensures Verified(e, Document(pages)) <==> Genuine(pages, e)
  {
    hide Verified, Genuine;
    if Verified(e, Document(pages)) {
      VerifiedIsGenuine(pages, e);
    }
    if Genuine(pages, e) {
      GenuineIsVerified(pages, e);
    }
  }

  method DocumentLines(pages: seq<string>) returns (lines: seq<SourceLine>)
    ensures lines == Document(pages)
  {
    lines := [];
    for p := 0 to |pages|
      invariant lines == Document(pages[..p])
    {
      assert pages[..p + 1][..p] == pages[..p];
      var body := Lines(pages[p]);
      ghost var before := lines;
      for i := 0 to |body|
        invariant lines == before + PageLines(p + 1, pages[p])[..i]
      {
        lines := lines + [SourceLine(p + 1, body[i])];
      }
      assert PageLines(p + 1, pages[p])[..|body|] == PageLines(p + 1, pages[p]);
    }
    assert pages[..|pages|] == pages;
  }

  lemma ConcatSnoc(parts: seq<string>, last: string)
    ensures Concat(parts + [last]) == Concat(parts) + last
  {
    ConcatAppend(parts, [last]);
    assert Concat([last]) == last + Concat([last][1..]);
  }

  method Find(s: string, q: string) returns (found: bool)
    ensures found <==> Contains(s, q)
  {
    if |s| < |q| {
      return false;
    }
    for i := 0 to |s| - |q| + 1
      invariant forall k | 0 <= k < i :: !OccursAt(s, q, k)
    {
      if s[i..i + |q|] == q {
        assert OccursAt(s, q, i);
        return true;
      }
    }
    found := false;
  }

  method Verify(e: Quote, lines: seq<SourceLine>) returns (ok: bool)
    ensures ok <==> Verified(e, lines)
  {
    hide Contains;
    var q := Stripped(e.quote);
    if |q| < 8 || e.startLine < 1 || e.endLine < e.startLine || e.endLine > |lines| || e.endLine - e.startLine > 100 {
      return false;
    }
    var source := "";
    ghost var chosen := lines[e.startLine - 1..e.endLine];
    for k := e.startLine - 1 to e.endLine
      invariant forall j | e.startLine - 1 <= j < k :: lines[j].page == e.page
      invariant source == Concat(Texts(chosen)[..k - (e.startLine - 1)])
    {
      if lines[k].page != e.page {
        return false;
      }
      var n := k - (e.startLine - 1);
      assert Texts(chosen)[..n + 1] == Texts(chosen)[..n] + [lines[k].text];
      ConcatSnoc(Texts(chosen)[..n], lines[k].text);
      source := source + lines[k].text;
    }
    assert Texts(chosen)[..|chosen|] == Texts(chosen);
    ok := Find(Stripped(source), q);
  }

  // ----- tags and matches -----

  datatype TagResult = TagResult(code: string, status: string, confidence: real, evidence: seq<Quote>)

  datatype Dimensions = Dimensions(major: real, skills: real, experience: real, requirement: real, quality: real)

  datatype Match = Match(jobRef: string, rank: int, dimensions: Dimensions, reported: real, evidence: seq<Quote>)

  /** The nearest whole number, halves away from zero. */
  function Rounded(x: real): int { if x >= 0.0 then (x + 0.5).Floor else 0 - (0.5 - x).Floor }

  /** The weighted sum of the dimensions in ten-thousandths. */
  function Score(d: Dimensions): int {
    Rounded((d.major * 0.3 + d.skills * 0.2 + d.experience * 0.25 + d.requirement * 0.15 + d.quality * 0.1) * 10000.0)
  }

  /** The reported score is close enough to the computed one. */
  predicate Stated(m: Match) {
    var off := Score(m.dimensions) as real / 10000.0 - m.reported;
    0.0 - 0.00011 <= off <= 0.00011
  }

  /** The rounded value is a half off at most; between whole numbers it stays between them. */
  lemma RoundedIsNear(x: real, low: int, high: int)
    ensures x - 0.5 <= Rounded(x) as real <= x + 0.5
    ensures low as real <= x <= high as real ==> low <= Rounded(x) <= high
  {
    if low as real <= x <= high as real {
      if x >= 0.0 {
        FloorBetween(x + 0.5, low, high);
      } else {
        FloorBetween(0.5 - x, 0 - high, 0 - low);
      }
    }
  }

  lemma FloorBetween(y: real, low: int, high: int)
    requires low as real + 0.5 <= y <= high as real + 0.5
    ensures low <= y.Floor <= high
  {}

  /** The score is the weighted sum, half a ten-thousandth off at most, and lies between the lowest and the
      highest dimension. */
  lemma ScoreIsAverage(d: Dimensions, low: int, high: int)
    ensures var sum := d.major * 3000.0 + d.skills * 2000.0 + d.experience * 2500.0 + d.requirement * 1500.0 + d.quality * 1000.0;
            Score(d) as real - 0.5 <= sum <= Score(d) as real + 0.5
    ensures (forall x | x in [d.major, d.skills, d.experience, d.requirement, d.quality] :: low as real <= x * 10000.0 <= high as real)
            ==> low <= Score(d) <= high
  {
    hide Rounded;
    var sum := (d.major * 0.3 + d.skills * 0.2 + d.experience * 0.25 + d.requirement * 0.15 + d.quality * 0.1) * 10000.0;
    RoundedIsNear(sum, low, high);
    var all := [d.major, d.skills, d.experience, d.requirement, d.quality];
    assert all[0] in all && all[1] in all && all[2] in all && all[3] in all && all[4] in all;
  }

  predicate AllVerified(evidence: seq<Quote>, lines: seq<SourceLine>) {
    forall i | 0 <= i < |evidence| :: Verified(evidence[i], lines)
  }

  predicate TagsOk(tags: seq<TagResult>, known: set<string>, lines: seq<SourceLine>) {
    && (forall i | 0 <= i < |tags| :: tags[i].code in known && AllVerified(tags[i].evidence, lines))
    && (forall i, j | 0 <= i < j < |tags| :: tags[i].code != tags[j].code)
  }

  /** A match may follow another one. */
  predicate Follows(a: Match, b: Match) {
    var (x, y) := (Score(a.dimensions), Score(b.dimensions));
    y < x || (y == x && StringLe(a.jobRef, b.jobRef))
  }

  predicate MatchesOk(ms: seq<Match>, refs: seq<string>, lines: seq<SourceLine>) {
    && (forall i | 0 <= i < |ms| :: ms[i].jobRef in refs && Stated(ms[i]) && ms[i].rank == i + 1 && AllVerified(ms[i].evidence, lines))
    && (forall i, j | 0 <= i < j < |ms| :: ms[i].jobRef != ms[j].jobRef)
    && (forall i | 0 < i < |ms| :: Follows(ms[i - 1], ms[i]))
  }

  function RefsOf(ms: seq<Match>): (r: seq<string>)
    ensures |r| == |ms| && forall i | 0 <= i < |r| :: r[i] == ms[i].jobRef
  {
    seq(|ms|, i requires 0 <= i < |ms| => ms[i].jobRef)
  }

  /** The part of validateAnalysis about the profile's claims, tags, matches and covered jobs. */
  predicate Accepted(claims: seq<Quote>, tags: seq<TagResult>, known: set<string>, ms: seq<Match>, refs: seq<string>,
                     covered: seq<string>, lines: seq<SourceLine>) {
    AllVerified(claims, lines) && TagsOk(tags, known, lines) && MatchesOk(ms, refs, lines) && |ms| == |refs| && multiset(covered) == multiset(refs)
  }

  lemma WithoutOne(b: seq<string>, k: nat, y: string)
    requires k < |b| && y in b && y != b[k]
    ensures y in b[..k] + b[k + 1..]
  {
    var rest := b[..k] + b[k + 1..];
    var l :| 0 <= l < |b| && b[l] == y;
    assert rest[if l < k then l else l - 1] == y;
  }

  lemma OneTakenOut(b: seq<string>, k: nat)
    requires k < |b|
    ensures multiset(b) == multiset{b[k]} + multiset(b[..k] + b[k + 1..])
  {
    assert b == b[..k] + [b[k]] + b[k + 1..];
  }

  lemma {:induction false} SameSizeSubset(a: seq<string>, b: seq<string>)
    requires |a| == |b| && (forall i, j | 0 <= i < j < |a| :: a[i] != a[j]) && forall x | x in a :: x in b
    ensures multiset(a) == multiset(b)
  {
    if a != [] {
      var x, tail := a[0], a[1..];
      assert x in b;
      var k :| 0 <= k < |b| && b[k] == x;
      assert forall i | 0 <= i < |tail| :: tail[i] == a[i + 1];
      forall y | y in tail ensures y in b[..k] + b[k + 1..] {
        WithoutOne(b, k, y);
      }
      SameSizeSubset(tail, b[..k] + b[k + 1..]);
      OneTakenOut(b, k);
      assert a == [x] + tail;
    }
  }

  /** An accepted analysis ranks exactly the requested jobs, each once, best first and by reference
      among equals, with ranks 1 to n. */
  lemma AcceptedIsRanking(claims: seq<Quote>, tags: seq<TagResult>, known: set<string>, ms: seq<Match>, refs: seq<string>,
                          covered: seq<string>, lines: seq<SourceLine>, i: nat, j: nat)
    requires Accepted(claims, tags, known, ms, refs, covered, lines) && i < j < |ms|
    ensures multiset(RefsOf(ms)) == multiset(refs) == multiset(covered)
    ensures ms[i].rank == i + 1 && ms[j].rank == j + 1 && ms[i].jobRef != ms[j].jobRef
    ensures var (x, y) := (Score(ms[i].dimensions), Score(ms[j].dimensions)); x > y || (x == y && StringLe(ms[i].jobRef, ms[j].jobRef))
  {
    hide Verified, StringLe, Score, Stated;
    forall x | x in RefsOf(ms) ensures x in refs {}
    SameSizeSubset(RefsOf(ms), refs);
    FollowsAlong(ms, i, j);
  }

  /** And every such ranking with genuine evidence is accepted. */
  lemma RankingIsAccepted(claims: seq<Quote>, tags: seq<TagResult>, known: set<string>, ms: seq<Match>, refs: seq<string>,
                          covered: seq<string>, pages: seq<string>)
    requires forall e | e in claims || (exists t :: t in tags && e in t.evidence) || (exists m :: m in ms && e in m.evidence) :: Genuine(pages, e)
    requires (forall t | t in tags :: t.code in known) && forall i, j | 0 <= i < j < |tags| :: tags[i].code != tags[j].code
    requires |ms| == |refs| && multiset(covered) == multiset(refs) && forall m | m in ms :: m.jobRef in refs
    requires forall i | 0 <= i < |ms| ::
               && ms[i].rank == i + 1
               && Score(ms[i].dimensions) as real / 10000.0 - 0.00011 <= ms[i].reported <= Score(ms[i].dimensions) as real / 10000.0 + 0.00011
    requires forall i, j | 0 <= i < j < |ms| ::
               && ms[i].jobRef != ms[j].jobRef
               && (Score(ms[i].dimensions) > Score(ms[j].dimensions)
                   || (Score(ms[i].dimensions) == Score(ms[j].dimensions) && StringLe(ms[i].jobRef, ms[j].jobRef)))
    ensures Accepted(claims, tags, known, ms, refs, covered, Document(pages))
  {
    hide Genuine, Verified, StringLe, Score, Document;
    forall e | Genuine(pages, e) ensures Verified(e, Document(pages)) {
      VerifiedExactlyWhen(pages, e);
    }
    forall i | 0 <= i < |tags| ensures tags[i] in tags && AllVerified(tags[i].evidence, Document(pages)) {}
    forall i | 0 <= i < |ms| ensures ms[i] in ms && AllVerified(ms[i].evidence, Document(pages)) {}
  }

  lemma {:induction false} FollowsAlong(ms: seq<Match>, i: nat, j: nat)
    requires i < j < |ms| && forall k | 0 < k < |ms| :: Follows(ms[k - 1], ms[k])
    ensures Follows(ms[i], ms[j])
  {
    hide StringLe, Score;
    if i + 1 == j {
      assert Follows(ms[j - 1], ms[j]);
    } else {
      FollowsAlong(ms, i, j - 1);
      assert Follows(ms[j - 1], ms[j]);
      StringOrder();
    }
  }

  /** Every piece of evidence behind an accepted analysis stands on its page. */
  lemma AcceptedEvidenceIsReal(
    claims: seq<Quote>, tags: seq<TagResult>, known: set<string>, ms: seq<Match>, refs: seq<string>, covered: seq<string>,
    pages: seq<string>, e: Quote)
    requires Accepted(claims, tags, known, ms, refs, covered, Document(pages))
    requires e in claims || (exists t :: t in tags && e in t.evidence) || (exists m :: m in ms && e in m.evidence)
    ensures 1 <= e.page <= |pages| && Contains(Stripped(pages[e.page - 1]), Stripped(e.quote)) && |Stripped(e.quote)| >= 8
  {
    hide Stripped, Contains, Document, Follows;
    if t :| t in tags && e in t.evidence {
      assert AllVerified(t.evidence, Document(pages));
    } else if e !in claims {
      var m :| m in ms && e in m.evidence;
      assert AllVerified(m.evidence, Document(pages));
    }
    assert Verified(e, Document(pages));
    AcceptedQuoteIsOnPage(pages, e);
  }

  method AllQuotes(evidence: seq<Quote>, lines: seq<SourceLine>) returns (ok: bool)
    ensures ok <==> AllVerified(evidence, lines)
  {
    hide Verified;
    for i := 0 to |evidence|
      invariant forall k | 0 <= k < i :: Verified(evidence[k], lines)
    {
      var one := Verify(evidence[i], lines);
      if !one {
        return false;
      }
    }
    ok := true;
  }

  /** The tag loop: rejects unknown or repeated tags and downgrades doubtful ones. */
  method CheckTags(tags: seq<TagResult>, known: set<string>, lines: seq<SourceLine>) returns (ok: bool, checked: seq<TagResult>)
    ensures ok <==> TagsOk(tags, known, lines)
    ensures ok ==> |checked| == |tags|
    ensures ok ==> forall i | 0 <= i < |tags| ::
              checked[i] == if tags[i].confidence < 0.8 then tags[i].(status := "needs_verification") else tags[i]
  {
    hide AllVerified;
    checked := tags;
    var seen: set<string> := {};
    for i := 0 to |tags|
      invariant seen == set k | 0 <= k < i :: tags[k].code
      invariant |checked| == |tags|
      invariant forall k | 0 <= k < |tags| :: checked[k] ==
                  if k < i && tags[k].confidence < 0.8 then tags[k].(status := "needs_verification") else tags[k]
      invariant forall k | 0 <= k < i :: tags[k].code in known && AllVerified(tags[k].evidence, lines)
      invariant forall k, l | 0 <= k < l < i :: tags[k].code != tags[l].code
    {
      if tags[i].code !in known || tags[i].code in seen {
        return false, checked;
      }
      seen := seen + {tags[i].code};
      var genuine := AllQuotes(tags[i].evidence, lines);
      if !genuine {
        return false, checked;
      }
      if tags[i].confidence < 0.8 {
        checked := checked[i := tags[i].(status := "needs_verification")];
      }
    }
    ok := true;
  }

  /** The match loop with its running last score and reference. */
  method CheckMatches(ms: seq<Match>, refs: seq<string>, lines: seq<SourceLine>) returns (ok: bool)
    ensures ok <==> MatchesOk(ms, refs, lines)
  {
    hide AllVerified, StringLe, Score, Stated;
    var seen: set<string> := {};
    var lastScore, lastRef := 0, "";
    StringOrder();
    for i := 0 to |ms|
      invariant seen == set k | 0 <= k < i :: ms[k].jobRef
      invariant i > 0 ==> lastScore == Score(ms[i - 1].dimensions) && lastRef == ms[i - 1].jobRef
      invariant forall k | 0 <= k < i :: ms[k].jobRef in refs && Stated(ms[k]) && ms[k].rank == k + 1 && AllVerified(ms[k].evidence, lines)
      invariant forall k, l | 0 <= k < l < i :: ms[k].jobRef != ms[l].jobRef
      invariant forall k | 0 < k < i :: Follows(ms[k - 1], ms[k])
    {
      var m := ms[i];
      if m.jobRef in seen || m.jobRef !in refs {
        return false;
      }
      seen := seen + {m.jobRef};
      var score := Score(m.dimensions);
      var after := i > 0 && (score > lastScore || (score == lastScore && !StringLe(lastRef, m.jobRef)));
      if !Stated(m) || m.rank != i + 1 || after {
        return false;
      }
      lastScore, lastRef := score, m.jobRef;
      var verified := AllQuotes(m.evidence, lines);
      if !verified {
        return false;
      }
    }
    ok := true;
  }

  /** validateAnalysis from the text on. */
  method ValidateAnalysis(pages: seq<string>, claims: seq<Quote>, tags: seq<TagResult>, known: set<string>, ms: seq<Match>,
                          refs: seq<string>, covered: seq<string>)
    returns (ok: bool, checked: seq<TagResult>)
    ensures ok <==> Accepted(claims, tags, known, ms, refs, covered, Document(pages))
    ensures ok ==> |checked| == |tags|
    ensures ok ==> forall i | 0 <= i < |tags| ::
              checked[i] == if tags[i].confidence < 0.8 then tags[i].(status := "needs_verification") else tags[i]
  {
    hide TagsOk, MatchesOk, Document, AllVerified;
    var lines := DocumentLines(pages);
    checked := tags;
    ok := AllQuotes(claims, lines);
    if ok {
      ok, checked := CheckTags(tags, known, lines);
    }
    if ok {
      ok := CheckMatches(ms, refs, lines);
      ok := ok && |ms| == |refs| && multiset(covered) == multiset(refs);
    }
  }
}
