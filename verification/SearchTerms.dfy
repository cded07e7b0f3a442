/**
 Full-text terms: words are runs of letters and digits, Chinese and Japanese runs become
 overlapping two-character grams. The scanning loops are specified by what they find.
 */
module SearchTerms {
  import opened Order

  /** The Unicode tables: Han/Hiragana/Katakana, letters and digits, and case folding. */
  datatype Unicode = Unicode(cjk: char -> bool, alnum: char -> bool, lower: string -> string) {
    predicate Word(r: char) {
      !cjk(r) && alnum(r)
    }

    /** A space is neither; the store joins key and content with one. */
    predicate SpaceSeparates() {
      !cjk(' ') && !alnum(' ')
    }
  }

  const MAX_SEARCH_WORDS: nat := 32
  const MAX_SEARCH_GRAMS: nat := 64

  predicate OccursAt(text: string, i: int, part: string) {
    0 <= i && i + |part| <= |text| && text[i..i + |part|] == part
  }

  predicate Contains(text: string, part: string) {
    exists i :: 0 <= i <= |text| && OccursAt(text, i, part)
  }

  // ---- what the scan finds --------------------------------------------------------------------------

  /** The longest suffix of characters of one kind: what the scan holds in its buffer. */
  function Tail(kind: char -> bool, text: string): string {
    if text == "" || !kind(text[|text| - 1]) then "" else Tail(kind, text[..|text| - 1]) + [text[|text| - 1]]
  }

  function FlushWord(u: Unicode, run: string): seq<string> {
    if run == "" then [] else [u.lower(run)]
  }

  /** Words emitted once the text has been read, before the final flush. */
  function WordsRead(u: Unicode, text: string): seq<string> {
    if text == "" then []
    else
      var rest := text[..|text| - 1];
      WordsRead(u, rest) + (if u.Word(text[|text| - 1]) then [] else FlushWord(u, Tail(u.Word, rest)))
  }

  function Words(u: Unicode, text: string): seq<string> {
    WordsRead(u, text) + FlushWord(u, Tail(u.Word, text))
  }

  /** A lone character stays a unigram; a longer run becomes its overlapping pairs. */
  function RunGrams(run: string): seq<string> {
    if |run| == 0 then []
    else if |run| == 1 then [run]
    else seq(|run| - 1, i requires 0 <= i < |run| - 1 => run[i..i + 2])
  }

  function GramsRead(u: Unicode, text: string): seq<string> {
    if text == "" then []
    else
      var rest := text[..|text| - 1];
      GramsRead(u, rest) + (if u.cjk(text[|text| - 1]) then [] else RunGrams(Tail(u.cjk, rest)))
  }

  function Grams(u: Unicode, text: string): seq<string> {
    GramsRead(u, text) + RunGrams(Tail(u.cjk, text))
  }

  // ---- duplicate-free, limited lists ------------------------------------------------------------------

  function Dedup(xs: seq<string>): seq<string> {
    if xs == [] then []
    else
      var rest, x := xs[..|xs| - 1], xs[|xs| - 1];
      if x in rest then Dedup(rest) else Dedup(rest) + [x]
  }

  function Take(xs: seq<string>, limit: nat): seq<string> {
    if |xs| <= limit then xs else xs[..limit]
  }

  lemma {:induction false} DedupSame(xs: seq<string>)
    ensures forall x :: x in Dedup(xs) <==> x in xs
    ensures forall i, j :: 0 <= i < j < |Dedup(xs)| ==> Dedup(xs)[i] != Dedup(xs)[j]
  {
    if xs != [] {
      DedupSame(xs[..|xs| - 1]);
      assert xs == xs[..|xs| - 1] + [xs[|xs| - 1]];
    }
  }

  /** A limited list is a duplicate-free prefix of the unlimited one. */
  lemma LimitedIsPrefix(xs: seq<string>, limit: nat)
    ensures Take(Dedup(xs), limit) <= Dedup(xs)
    ensures var ys := Take(Dedup(xs), limit); forall i, j :: 0 <= i < j < |ys| ==> ys[i] != ys[j]
    ensures forall x :: x in Take(Dedup(xs), limit) ==> x in xs
  {
    DedupSame(xs);
  }

  function Add(terms: seq<string>, limit: nat, term: string): seq<string> {
    if term in terms || |terms| >= limit then terms else terms + [term]
  }

  function AddAll(terms: seq<string>, limit: nat, more: seq<string>): seq<string>
    decreases more
  {
    if more == [] then terms else AddAll(Add(terms, limit, more[0]), limit, more[1..])
  }

  lemma AddKeeps(xs: seq<string>, limit: nat, x: string)
    ensures Add(Take(Dedup(xs), limit), limit, x) == Take(Dedup(xs + [x]), limit)
  {
    DedupSame(xs);
    assert (xs + [x])[..|xs|] == xs;
  }

  lemma {:induction false} AddAllKeeps(xs: seq<string>, limit: nat, more: seq<string>)
    ensures AddAll(Take(Dedup(xs), limit), limit, more) == Take(Dedup(xs + more), limit)
    decreases more
  {
    if more == [] {
      assert xs + more == xs;
    } else {
      AddKeeps(xs, limit, more[0]);
      AddAllKeeps(xs + [more[0]], limit, more[1..]);
      assert xs + [more[0]] + more[1..] == xs + more;
    }
  }

  method AddTerms(terms: seq<string>, limit: nat, more: seq<string>) returns (r: seq<string>)
    ensures r == AddAll(terms, limit, more)
  {
    r := terms;
    var i := 0;
    while i < |more|
      invariant 0 <= i <= |more| && AddAll(r, limit, more[i..]) == AddAll(terms, limit, more)
    {
      assert more[i..][0] == more[i] && more[i..][1..] == more[i + 1..];
      if !(more[i] in r || |r| >= limit) {
        r := r + [more[i]];
      }
      i := i + 1;
    }
  }

  /** splitSearchTerms: the first distinct words and grams, in order of appearance. */
  method SplitSearchTerms(u: Unicode, text: string, wordLimit: nat, gramLimit: nat)
    returns (words: seq<string>, grams: seq<string>)
    ensures words == Take(Dedup(Words(u, text)), wordLimit)
    ensures grams == Take(Dedup(Grams(u, text)), gramLimit)
  {
    words, grams := [], [];
    var word, cjk := "", "";
    for i := 0 to |text|
      invariant word == Tail(u.Word, text[..i]) && cjk == Tail(u.cjk, text[..i])
      invariant words == Take(Dedup(WordsRead(u, text[..i])), wordLimit)
      invariant grams == Take(Dedup(GramsRead(u, text[..i])), gramLimit)
    {
      var r := text[i];
      assert text[..i + 1][..i] == text[..i];
      AddAllKeeps(WordsRead(u, text[..i]), wordLimit, FlushWord(u, word));
      AddAllKeeps(GramsRead(u, text[..i]), gramLimit, RunGrams(cjk));
      assert WordsRead(u, text[..i]) + [] == WordsRead(u, text[..i]);
      assert GramsRead(u, text[..i]) + [] == GramsRead(u, text[..i]);
      if u.cjk(r) {
        words := AddTerms(words, wordLimit, FlushWord(u, word));
        word := "";
        cjk := cjk + [r];
      } else if u.alnum(r) {
        grams := AddTerms(grams, gramLimit, RunGrams(cjk));
        cjk := "";
        word := word + [r];
      } else {
        words := AddTerms(words, wordLimit, FlushWord(u, word));
        grams := AddTerms(grams, gramLimit, RunGrams(cjk));
        word, cjk := "", "";
      }
    }
    assert text[..|text|] == text;
    AddAllKeeps(WordsRead(u, text), wordLimit, FlushWord(u, word));
    AddAllKeeps(GramsRead(u, text), gramLimit, RunGrams(cjk));
    words := AddTerms(words, wordLimit, FlushWord(u, word));
    grams := AddTerms(grams, gramLimit, RunGrams(cjk));
  }

  method SearchTermsOf(u: Unicode, text: string) returns (words: seq<string>, grams: seq<string>)
    ensures words == QueryWords(u, text) && grams == QueryGrams(u, text)
  {
    words, grams := SplitSearchTerms(u, text, MAX_SEARCH_WORDS, MAX_SEARCH_GRAMS);
  }

  function QueryWords(u: Unicode, text: string): seq<string> {
    Take(Dedup(Words(u, text)), MAX_SEARCH_WORDS)
  }

  function QueryGrams(u: Unicode, text: string): seq<string> {
    Take(Dedup(Grams(u, text)), MAX_SEARCH_GRAMS)
  }

  // ---- the terms, declaratively -------------------------------------------------------------------------

  predicate At(kind: char -> bool, text: string, i: int) {
    0 <= i < |text| && kind(text[i])
  }

  /** g is a pair of adjacent CJK characters at i, or a CJK character at i with none beside it. */
  predicate GramAt(u: Unicode, text: string, i: int, g: string) {
    && At(u.cjk, text, i)
    && if At(u.cjk, text, i + 1) then g == text[i..i + 2] else !At(u.cjk, text, i - 1) && g == text[i..i + 1]
  }

  /** text[i..j] is a maximal run of characters of one kind. */
  predicate RunAt(kind: char -> bool, text: string, i: int, j: int) {
    && 0 <= i < j <= |text| && (forall k :: i <= k < j ==> kind(text[k]))
    && !At(kind, text, i - 1) && !At(kind, text, j)
  }

  lemma {:induction false} TailMeans(kind: char -> bool, text: string)
    ensures |Tail(kind, text)| <= |text| && text[|text| - |Tail(kind, text)|..] == Tail(kind, text)
    ensures forall i :: |text| - |Tail(kind, text)| <= i < |text| ==> kind(text[i])
    ensures !At(kind, text, |text| - |Tail(kind, text)| - 1)
  {
    if text != "" && kind(text[|text| - 1]) {
      TailMeans(kind, text[..|text| - 1]);
    }
  }

  /** What the buffer yields when it is flushed: the grams at its positions. */
  lemma RunGramsExact(u: Unicode, text: string, g: string)
    ensures g in RunGrams(Tail(u.cjk, text)) <==>
            exists i :: |text| - |Tail(u.cjk, text)| <= i < |text| && GramAt(u, text, i, g)
  {
    var run := Tail(u.cjk, text);
    TailMeans(u.cjk, text);
    var start := |text| - |run|;
    if |run| == 1 {
      assert text[start..start + 1] == run;
      assert g == run ==> GramAt(u, text, start, g);
    } else if |run| > 1 {
      forall k | 0 <= k < |run| - 1
        ensures GramAt(u, text, start + k, RunGrams(run)[k])
      {
        assert text[start + k..start + k + 2] == run[k..k + 2];
      }
      if g in RunGrams(run) {
        var k :| 0 <= k < |run| - 1 && RunGrams(run)[k] == g;
        assert GramAt(u, text, start + k, g);
      }
      if i :| start <= i < |text| && GramAt(u, text, i, g) {
        assert i < |text| - 1 by { assert i == |text| - 1 ==> At(u.cjk, text, i - 1); }
        assert RunGrams(run)[i - start] == g;
      }
    }
  }

  /** A gram that starts before the last character of the text is already decided by the text so far. */
  lemma GramPrefix(u: Unicode, text: string, i: int, g: string)
    requires 0 <= i < |text| - 1 && !u.cjk(text[|text| - 1])
    ensures GramAt(u, text, i, g) <==> GramAt(u, text[..|text| - 1], i, g)
  {
    var rest := text[..|text| - 1];
    assert i + 2 <= |rest| ==> rest[i..i + 2] == text[i..i + 2];
    assert rest[i..i + 1] == text[i..i + 1];
  }

  lemma GramBefore(u: Unicode, text: string, i: int, g: string)
    requires text != "" && 0 <= i < |text| - 1 - |Tail(u.cjk, text[..|text| - 1])|
    ensures GramAt(u, text, i, g) <==> GramAt(u, text[..|text| - 1], i, g)
  {
    var rest := text[..|text| - 1];
    TailMeans(u.cjk, rest);
    if i == |rest| - 1 {
      assert !At(u.cjk, rest, i);
    } else {
      assert rest[i..i + 2] == text[i..i + 2] && rest[i..i + 1] == text[i..i + 1];
    }
  }

  /** Grams emitted so far are those that start before the buffered run. */
  lemma {:induction false} GramsReadExact(u: Unicode, text: string, g: string)
    ensures g in GramsRead(u, text) <==> exists i :: 0 <= i < |text| - |Tail(u.cjk, text)| && GramAt(u, text, i, g)
  {
    if text != "" {
      var rest := text[..|text| - 1];
      var held, kept := |Tail(u.cjk, rest)|, |Tail(u.cjk, text)|;
      GramsReadExact(u, rest, g);
      RunGramsExact(u, rest, g);
      TailMeans(u.cjk, rest);
      if u.cjk(text[|text| - 1]) {
        assert kept == held + 1;
        forall i | 0 <= i < |rest| - held
          ensures GramAt(u, text, i, g) <==> GramAt(u, rest, i, g)
        {
          GramBefore(u, text, i, g);
        }
      } else {
        forall i | 0 <= i < |rest|
          ensures GramAt(u, text, i, g) <==> GramAt(u, rest, i, g)
        {
          GramPrefix(u, text, i, g);
        }
        assert !GramAt(u, text, |text| - 1, g);
      }
    }
  }

  /** The grams of a text are exactly its adjacent CJK pairs and its isolated CJK characters. */
  lemma GramsExact(u: Unicode, text: string, g: string)
    ensures g in Grams(u, text) <==> exists i :: GramAt(u, text, i, g)
  {
    GramsReadExact(u, text, g);
    RunGramsExact(u, text, g);
    TailMeans(u.cjk, text);
    assert forall i :: GramAt(u, text, i, g) ==> 0 <= i < |text|;
  }

  lemma GramShape(u: Unicode, text: string, i: int, g: string)
    requires GramAt(u, text, i, g)
    ensures 1 <= |g| <= 2 && OccursAt(text, i, g) && (forall k :: 0 <= k < |g| ==> u.cjk(g[k]))
  {
  }

  /** A query gram is one or two CJK characters and occurs in its text. */
  lemma QueryGramShape(u: Unicode, text: string, g: string)
    requires g in QueryGrams(u, text)
    ensures 1 <= |g| <= 2 && (forall k :: 0 <= k < |g| ==> u.cjk(g[k])) && Contains(text, g)
  {
    LimitedIsPrefix(Grams(u, text), MAX_SEARCH_GRAMS);
    GramsExact(u, text, g);
    var i :| GramAt(u, text, i, g);
    GramShape(u, text, i, g);
  }

  /** w is the lower-cased maximal run text[i..j] of letters and digits. */
  predicate WordRun(u: Unicode, text: string, i: int, j: int, w: string) {
    RunAt(u.Word, text, i, j) && w == u.lower(text[i..j])
  }

  /** A run that ends at the end of the text is the buffered one. */
  lemma TailIsLastRun(kind: char -> bool, text: string, i: int)
    ensures RunAt(kind, text, i, |text|) <==> Tail(kind, text) != "" && i == |text| - |Tail(kind, text)|
  {
    TailMeans(kind, text);
    var start := |text| - |Tail(kind, text)|;
    if RunAt(kind, text, i, |text|) {
      assert start < i ==> At(kind, text, i - 1);
    }
  }

  lemma RunPrefix(kind: char -> bool, text: string, i: int, j: int)
    requires text != "" && j < |text| - 1
    ensures RunAt(kind, text, i, j) <==> RunAt(kind, text[..|text| - 1], i, j)
    ensures 0 <= i <= j ==> text[i..j] == text[..|text| - 1][i..j]
  {
  }

  lemma {:induction false} WordsReadExact(u: Unicode, text: string, w: string)
    ensures w in WordsRead(u, text) <==> exists i, j :: j < |text| && WordRun(u, text, i, j, w)
  {
    if text != "" {
      var rest, r := text[..|text| - 1], text[|text| - 1];
      var start := |rest| - |Tail(u.Word, rest)|;
      WordsReadExact(u, rest, w);
      TailMeans(u.Word, rest);
      forall i, j | j < |rest|
        ensures WordRun(u, text, i, j, w) <==> WordRun(u, rest, i, j, w)
      {
        RunPrefix(u.Word, text, i, j);
      }
      forall i
        ensures WordRun(u, text, i, |rest|, w) <==>
                !u.Word(r) && Tail(u.Word, rest) != "" && i == start && w == u.lower(Tail(u.Word, rest))
      {
        TailIsLastRun(u.Word, rest, i);
        assert RunAt(u.Word, text, i, |rest|) <==> RunAt(u.Word, rest, i, |rest|) && !u.Word(r);
        assert 0 <= i <= |rest| ==> text[i..|rest|] == rest[i..];
      }
      if w in WordsRead(u, text) && w !in WordsRead(u, rest) {
        assert WordRun(u, text, start, |rest|, w);
      }
    }
  }

  /** The words of a text are exactly its maximal runs of letters and digits, lower-cased. */
  lemma WordsExact(u: Unicode, text: string, w: string)
    ensures w in Words(u, text) <==> exists i, j :: WordRun(u, text, i, j, w)
  {
    WordsReadExact(u, text, w);
    var start := |text| - |Tail(u.Word, text)|;
    TailMeans(u.Word, text);
    TailIsLastRun(u.Word, text, start);
    assert text[start..|text|] == text[start..];
    if w in Words(u, text) && w !in WordsRead(u, text) {
      assert WordRun(u, text, start, |text|, w);
    }
    if i, j :| WordRun(u, text, i, j, w) {
      if j == |text| {
        TailIsLastRun(u.Word, text, i);
      }
    }
  }

  // ---- the gram index -------------------------------------------------------------------------------------

  /** g is a CJK character at i, or it and the CJK character after it. */
  predicate WindowAt(u: Unicode, text: string, i: int, g: string) {
    At(u.cjk, text, i) && (g == text[i..i + 1] || (At(u.cjk, text, i + 1) && g == text[i..i + 2]))
  }

  ghost predicate Indexed(u: Unicode, text: string, g: string) {
    exists i :: WindowAt(u, text, i, g)
  }

  lemma WindowIsOccurrence(u: Unicode, text: string, i: int, g: string)
    requires 1 <= |g| <= 2 && forall k :: 0 <= k < |g| ==> u.cjk(g[k])
    ensures OccursAt(text, i, g) <==> WindowAt(u, text, i, g)
  {
    if OccursAt(text, i, g) {
      assert text[i] == g[0] && (|g| == 2 ==> text[i + 1] == g[1]);
    }
  }

  /** A query gram occurs in a text if and only if it is in the text's gram index. */
  lemma IndexIsExact(u: Unicode, query: string, text: string, g: string)
    requires g in QueryGrams(u, query)
    ensures Contains(text, g) <==> Indexed(u, text, g)
  {
    QueryGramShape(u, query, g);
    forall i
      ensures OccursAt(text, i, g) <==> WindowAt(u, text, i, g)
    {
      WindowIsOccurrence(u, text, i, g);
    }
    if i :| WindowAt(u, text, i, g) {
      assert OccursAt(text, i, g);
    }
  }

  /** The indexed prefilter keeps every text that a scan for the query's grams would match. */
  lemma PrefilterLosesNothing(u: Unicode, query: string, text: string)
    ensures (exists g :: g in QueryGrams(u, query) && Contains(text, g)) <==>
            (exists g :: g in QueryGrams(u, query) && Indexed(u, text, g))
  {
    forall g | g in QueryGrams(u, query)
      ensures Contains(text, g) <==> Indexed(u, text, g)
    {
      IndexIsExact(u, query, text, g);
    }
  }

  function Slice(run: string, i: nat, n: nat): string
    requires i + n <= |run|
  {
    run[i..i + n]
  }

  function RunWindows(run: string): set<string> {
    (set i | 0 <= i < |run| :: Slice(run, i, 1)) + (set i | 0 <= i < |run| - 1 :: Slice(run, i, 2))
  }

  /** Windows of the text that start at or after index k. */
  ghost predicate IndexedFrom(u: Unicode, text: string, lo: int, hi: int, g: string) {
    exists i :: lo <= i < hi && WindowAt(u, text, i, g)
  }

  predicate RunWindowAt(run: string, k: int, g: string) {
    0 <= k < |run| && (g == run[k..k + 1] || (k + 1 < |run| && g == run[k..k + 2]))
  }

  lemma RunWindowsMember(run: string, g: string)
    ensures g in RunWindows(run) <==> exists k :: RunWindowAt(run, k, g)
  {
    if g in RunWindows(run) {
      var k :| 0 <= k < |run| && (g == Slice(run, k, 1) || (k < |run| - 1 && g == Slice(run, k, 2)));
      assert RunWindowAt(run, k, g);
    }
    if k :| RunWindowAt(run, k, g) {
      assert g == Slice(run, k, 1) || g == Slice(run, k, 2);
    }
  }

  /** Windows of a run are the windows of the text at its positions. */
  lemma RunWindowShift(u: Unicode, text: string, start: nat, end: nat, k: nat, g: string)
    requires start + k < end <= |text| && !At(u.cjk, text, end)
    requires forall i :: start <= i < end ==> u.cjk(text[i])
    ensures RunWindowAt(text[start..end], k, g) <==> WindowAt(u, text, start + k, g)
  {
    var run := text[start..end];
    assert run[k] == text[start + k];
    assert run[k..k + 1] == [run[k]] && text[start + k..start + k + 1] == [run[k]];
    if k + 1 < |run| {
      assert run[k + 1] == text[start + k + 1];
      assert run[k..k + 2] == [run[k], run[k + 1]] && text[start + k..start + k + 2] == [run[k], run[k + 1]];
    }
  }

  lemma RunWindowsExact(u: Unicode, text: string, end: nat, g: string)
    requires end <= |text| && !At(u.cjk, text, end)
    ensures g in RunWindows(Tail(u.cjk, text[..end])) <==>
            IndexedFrom(u, text, end - |Tail(u.cjk, text[..end])|, end, g)
  {
    var run := Tail(u.cjk, text[..end]);
    TailMeans(u.cjk, text[..end]);
    var start := end - |run|;
    assert run == text[start..end];
    RunWindowsMember(run, g);
    if k :| RunWindowAt(run, k, g) {
      RunWindowShift(u, text, start, end, k, g);
    }
    if i :| start <= i < end && WindowAt(u, text, i, g) {
      RunWindowShift(u, text, start, end, i - start, g);
    }
  }

  /** IndexGrams: every CJK character and every adjacent pair, sorted. */
  method IndexGrams(u: Unicode, text: string) returns (grams: seq<string>)
    ensures forall g :: g in grams <==> Indexed(u, text, g)
    ensures Sorted(Less, grams) && forall g :: multiset(grams)[g] <= 1
  {
    var seen: set<string> := {};
    var run := "";
    for i := 0 to |text|
      invariant run == Tail(u.cjk, text[..i])
      invariant forall g :: g in seen <==> IndexedFrom(u, text, 0, i - |run|, g)
    {
      assert text[..i + 1][..i] == text[..i];
      TailMeans(u.cjk, text[..i]);
      if u.cjk(text[i]) {
        run := run + [text[i]];
      } else {
        seen := Flush(u, text, i, seen, run);
        run := "";
      }
    }
    assert text[..|text|] == text;
    TailMeans(u.cjk, text);
    seen := Flush(u, text, |text|, seen, run);
    assert forall g :: IndexedFrom(u, text, 0, |text|, g) <==> Indexed(u, text, g);
    grams := SortSet(seen);
  }

  method Flush(u: Unicode, text: string, end: nat, seen: set<string>, run: string) returns (r: set<string>)
    requires end <= |text| && !At(u.cjk, text, end) && run == Tail(u.cjk, text[..end])
    requires |run| <= end && forall g :: g in seen <==> IndexedFrom(u, text, 0, end - |run|, g)
    ensures forall g :: g in r <==> IndexedFrom(u, text, 0, end, g)
  {
    r := seen + RunWindows(run);
    forall g
      ensures g in r <==> IndexedFrom(u, text, 0, end, g)
    {
      RunWindowsExact(u, text, end, g);
      assert IndexedFrom(u, text, 0, end, g) <==>
             IndexedFrom(u, text, 0, end - |run|, g) || IndexedFrom(u, text, end - |run|, end, g);
    }
  }

  lemma LessOrder()
    ensures StrictOrder(Less)
  {
    forall x, y
      ensures Less(x, y) ==> !Less(y, x)
    {
      LessTotal(x, y);
    }
    forall x, y, z | !Less(y, x) && !Less(z, y)
      ensures !Less(z, x)
    {
      LessTotal(x, y);
      LessTotal(y, z);
      LessTotal(x, z);
      if Less(x, y) && Less(y, z) {
        LessTransitive(x, y, z);
      }
    }
  }

  method SortSet(s: set<string>) returns (xs: seq<string>)
    ensures (forall x :: x in xs <==> x in s) && Sorted(Less, xs) && multiset(xs) == multiset(s)
  {
    xs := [];
    var rest := s;
    while rest != {}
      invariant rest <= s && Sorted(Less, xs)
      invariant forall x :: x in xs <==> x in s - rest
      invariant multiset(xs) == multiset(s - rest)
      decreases rest
    {
      var x :| x in rest;
      assert multiset(s - (rest - {x})) == multiset{x} + multiset(s - rest);
      rest := rest - {x};
      LessOrder();
      InsertSorts(Less, x, xs);
      InsertPermutes(Less, x, xs);
      ghost var before := xs;
      xs := Insert(Less, x, xs);
      forall y
        ensures y in xs <==> y == x || y in before
      {
        assert y in xs <==> y in multiset(xs);
        assert y in before <==> y in multiset(before);
      }
    }
  }

  // ---- words and hits -----------------------------------------------------------------------------------------

  lemma Snoc(text: string, r: char)
    ensures (text + [r])[..|text| + 1 - 1] == text && (text + [r])[|text|] == r && |text + [r]| == |text| + 1
  {
  }

  lemma {:induction false} WordsAcrossSpace(u: Unicode, a: string, b: string)
    requires u.SpaceSeparates()
    ensures WordsRead(u, a + [' '] + b) == Words(u, a) + WordsRead(u, b)
    ensures Tail(u.Word, a + [' '] + b) == Tail(u.Word, b)
    decreases b
  {
    if b == "" {
      Snoc(a, ' ');
      assert a + [' '] + b == a + [' '];
      assert Words(u, a) + [] == Words(u, a);
    } else {
      var rest, r := b[..|b| - 1], b[|b| - 1];
      assert a + [' '] + b == (a + [' '] + rest) + [r];
      Snoc(a + [' '] + rest, r);
      WordsAcrossSpace(u, a, rest);
    }
  }

  /** A memory's words are those of its key followed by those of its content. */
  lemma WordsOfMemory(u: Unicode, key: string, content: string)
    requires u.SpaceSeparates()
    ensures Words(u, key + " " + content) == Words(u, key) + Words(u, content)
  {
    assert " " == [' '];
    WordsAcrossSpace(u, key, content);
  }

  function HitCount(terms: seq<string>, hit: string -> bool): nat {
    if terms == [] then 0 else (if hit(terms[0]) then 1 else 0) + HitCount(terms[1..], hit)
  }

  lemma {:induction false} HitCountBound(terms: seq<string>, hit: string -> bool)
    ensures HitCount(terms, hit) <= |terms|
    ensures (forall t :: t in terms ==> hit(t)) ==> HitCount(terms, hit) == |terms|
  {
    if terms != [] {
      HitCountBound(terms[1..], hit);
      assert terms == [terms[0]] + terms[1..];
    }
  }

  function Hits(u: Unicode, key: string, content: string, words: seq<string>, grams: seq<string>): nat {
    var text := key + " " + content;
    HitCount(words, w => w in Words(u, text)) + HitCount(grams, g => Contains(text, g))
  }

  method CountSearchTermHits(u: Unicode, key: string, content: string, words: seq<string>, grams: seq<string>)
    returns (hits: nat)
    ensures hits == Hits(u, key, content, words, grams)
  {
    var text := key + " " + content;
    var all := Words(u, text);
    var memoryWords, _ := SplitSearchTerms(u, text, |all|, 0);
    DedupSame(all);
    DedupLength(all);
    var isWord := w => w in Words(u, text);
    var isPart := g => Contains(text, g);
    hits := 0;
    for i := 0 to |words|
      invariant hits + HitCount(words[i..], isWord) == HitCount(words, isWord)
    {
      if words[i] in memoryWords {
        hits := hits + 1;
      }
    }
    ghost var found := hits;
    for i := 0 to |grams|
      invariant hits + HitCount(grams[i..], isPart) == found + HitCount(grams, isPart)
    {
      if Contains(text, grams[i]) {
        hits := hits + 1;
      }
    }
  }

  lemma {:induction false} DedupLength(xs: seq<string>)
    ensures |Dedup(xs)| <= |xs|
  {
    if xs != [] {
      DedupLength(xs[..|xs| - 1]);
    }
  }

  lemma OccursLater(prefix: string, text: string, i: int, part: string)
    requires OccursAt(text, i, part)
    ensures OccursAt(prefix + text, |prefix| + i, part)
  {
  }

  lemma GramsMatchOwnContent(u: Unicode, key: string, query: string, g: string)
    requires g in QueryGrams(u, query)
    ensures Contains(key + " " + query, g)
  {
    QueryGramShape(u, query, g);
    var i :| 0 <= i <= |query| && OccursAt(query, i, g);
    OccursLater(key + " ", query, i, g);
  }

  /** A memory whose content is the query text matches every query term, whatever its key. */
  lemma OwnContentMatchesAll(u: Unicode, key: string, query: string)
    requires u.SpaceSeparates()
    ensures var words, grams := QueryWords(u, query), QueryGrams(u, query);
            Hits(u, key, query, words, grams) == |words| + |grams|
  {
    var text := key + " " + query;
    WordsOfMemory(u, key, query);
    LimitedIsPrefix(Words(u, query), MAX_SEARCH_WORDS);
    HitCountBound(QueryWords(u, query), w => w in Words(u, text));
    forall g | g in QueryGrams(u, query)
      ensures Contains(text, g)
    {
      GramsMatchOwnContent(u, key, query, g);
    }
    HitCountBound(QueryGrams(u, query), g => Contains(text, g));
  }

  /** No memory has more hits than the query has terms. */
  lemma HitsBound(u: Unicode, key: string, content: string, words: seq<string>, grams: seq<string>)
    ensures Hits(u, key, content, words, grams) <= |words| + |grams|
  {
    var text := key + " " + content;
    HitCountBound(words, w => w in Words(u, text));
    HitCountBound(grams, g => Contains(text, g));
  }
}
