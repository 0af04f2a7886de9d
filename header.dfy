// The header's search logic: `processSearchQuery` (price chain and three
// first-match table scans), the query parameters `handleSubmit` builds, the
// badge text, and the file checks of `handleImageUpload`.
//
// The regular expressions are not run by an engine: each is hand-coded over
// the lower-cased query. Their meaning is stated first as functions on
// positions (what a leftmost regex match finds), and the scanning methods are
// proved to compute exactly that.
module Header {
  import opened JsText

  datatype PriceRange = PriceRange(min: nat, max: nat)

  /** The record `processSearchQuery` returns; `originalQuery` is absent for empty input. */
  datatype ParsedQuery = ParsedQuery(
    style: string,
    category: string,
    priceRange: Option<PriceRange>,
    color: string,
    originalQuery: Option<string>)

  /** One row of a pattern table: the name it yields and the alternatives of `\b(w1|w2|...)\b`. */
  datatype Entry = Entry(name: string, words: seq<string>)

  const Categories: seq<Entry> := [
    Entry("shirt", ["shirt", "shirts", "top", "tops", "t-shirt", "tshirt"]),
    Entry("pant", ["pant", "pants", "trouser", "trousers", "jeans", "jean"]),
    Entry("shoe", ["shoe", "shoes", "footwear", "sneaker", "sneakers"]),
    Entry("belt", ["belt", "belts"]),
    Entry("dress", ["dress", "dresses", "gown", "gowns"]),
    Entry("clothing", ["cloth", "clothes", "clothing", "apparel", "wear"])
  ]

  const Styles: seq<Entry> := [
    Entry("formal", ["formal", "office", "business", "corporate"]),
    Entry("casual", ["casual", "everyday", "regular", "comfort"]),
    Entry("party", ["party", "night", "celebration", "festive", "evening"]),
    Entry("sports", ["sports", "sport", "active", "athletic", "gym"]),
    Entry("traditional", ["traditional", "ethnic", "cultural", "indian"])
  ]

  const Colors: seq<Entry> := [
    Entry("red", ["red", "scarlet", "crimson", "maroon"]),
    Entry("blue", ["blue", "navy", "sky", "azure"]),
    Entry("black", ["black", "ebony", "charcoal"]),
    Entry("white", ["white", "ivory", "cream"]),
    Entry("green", ["green", "emerald", "olive"]),
    Entry("yellow", ["yellow", "gold", "mustard"]),
    Entry("pink", ["pink", "rose", "fuchsia"]),
    Entry("purple", ["purple", "violet", "lavender"]),
    Entry("brown", ["brown", "tan", "beige"]),
    Entry("gray", ["gray", "grey", "silver"])
  ]

  /** The alternatives of `(under|below|less than|upto|under)\s*(\d+)`, in order. */
  const UnderKeywords: seq<string> := ["under", "below", "less than", "upto", "under"]
  /** The alternatives of `(above|over|more than)\s*(\d+)`. */
  const AboveKeywords: seq<string> := ["above", "over", "more than"]

  /** The upper bound an "above N" query gets. */
  const PriceCeiling: nat := 10000
  /** What `parseInt(...) || 500` gives when the digits read as 0. */
  const DefaultPrice: nat := 500

  // ---------------------------------------------------------------------------
  // Whole words: `\b(w1|w2|...)\b`

  /** `\b` at offset `i`: exactly one of the characters either side is a word character. */
  predicate Boundary(q: string, i: int)
    requires 0 <= i <= |q|
  {
    (i > 0 && IsWordChar(q[i - 1])) != (i < |q| && IsWordChar(q[i]))
  }

  /** `w` occurs at offset `p` with a word boundary on both sides. */
  predicate WordAt(q: string, w: string, p: int) {
    0 <= p && p + |w| <= |q| && q[p..p + |w|] == w && Boundary(q, p) && Boundary(q, p + |w|)
  }

  predicate HasWord(q: string, w: string) {
    exists p | 0 <= p <= |q| - |w| :: WordAt(q, w, p)
  }

  /** `pattern.test(query)` for `\b(words[0]|words[1]|...)\b`. */
  predicate MatchesEntry(q: string, words: seq<string>) {
    exists i | 0 <= i < |words| :: HasWord(q, words[i])
  }

  /** The first-match-wins scan over a table: the name of the first row whose
      pattern matches, or '' when none does. */
  function FirstMatch(table: seq<Entry>, q: string): string {
    if table == [] then ""
    else if MatchesEntry(q, table[0].words) then table[0].name
    else FirstMatch(table[1..], q)
  }

  /** FirstMatch is '' exactly when no row matches; otherwise it is the name of
      a matching row such that no earlier row matches. */
  lemma FirstMatchIsFirstMatchingRow(table: seq<Entry>, q: string)
    requires forall i :: 0 <= i < |table| ==> table[i].name != ""
    ensures FirstMatch(table, q) == "" <==> forall i :: 0 <= i < |table| ==> !MatchesEntry(q, table[i].words)
    ensures FirstMatch(table, q) != "" ==>
      exists i :: 0 <= i < |table| && table[i].name == FirstMatch(table, q) && MatchesEntry(q, table[i].words)
        && forall j :: 0 <= j < i ==> !MatchesEntry(q, table[j].words)
  {
    FirstMatchEmpty(table, q);
    if FirstMatch(table, q) != "" {
      FirstMatchFound(table, q);
    }
  }

  lemma {:induction false} FirstMatchEmpty(table: seq<Entry>, q: string)
    requires forall i :: 0 <= i < |table| ==> table[i].name != ""
    ensures FirstMatch(table, q) == "" <==> forall i :: 0 <= i < |table| ==> !MatchesEntry(q, table[i].words)
  {
    if table != [] {
      var rest := table[1..];
      if !MatchesEntry(q, table[0].words) {
        FirstMatchEmpty(rest, q);
        assert forall i :: 1 <= i < |table| ==> table[i] == rest[i - 1];
      } else {
        assert table[0].name != "";
      }
    }
  }

  lemma {:induction false} FirstMatchFound(table: seq<Entry>, q: string)
    requires FirstMatch(table, q) != ""
    ensures
      exists i :: 0 <= i < |table| && table[i].name == FirstMatch(table, q) && MatchesEntry(q, table[i].words)
        && forall j :: 0 <= j < i ==> !MatchesEntry(q, table[j].words)
  {
    if !MatchesEntry(q, table[0].words) {
      var rest := table[1..];
      FirstMatchFound(rest, q);
      var i :| 0 <= i < |rest| && rest[i].name == FirstMatch(table, q) && MatchesEntry(q, rest[i].words)
        && forall j :: 0 <= j < i ==> !MatchesEntry(q, rest[j].words);
      assert table[i + 1] == rest[i];
      assert forall j :: 1 <= j < i + 1 ==> table[j] == rest[j - 1];
    }
  }

  /** A query that mentions words of several rows gets the earliest row. */
  lemma FirstMatchPrefersEarlierRow(table: seq<Entry>, q: string, i: nat, j: nat)
    requires forall k :: 0 <= k < |table| ==> table[k].name != ""
    requires forall k, l :: 0 <= k < l < |table| ==> table[k].name != table[l].name
    requires i < j < |table| && MatchesEntry(q, table[i].words)
    ensures FirstMatch(table, q) != table[j].name
  {
    FirstMatchIsFirstMatchingRow(table, q);
  }

  lemma TablesAreWellFormed()
    ensures forall k :: 0 <= k < |Categories| ==> Categories[k].name != ""
    ensures forall k :: 0 <= k < |Styles| ==> Styles[k].name != ""
    ensures forall k :: 0 <= k < |Colors| ==> Colors[k].name != ""
  {
  }

  // ---------------------------------------------------------------------------
  // Which rows a given query matches, read off its space-separated tokens

  predicate TableWord(w: string) {
    w != [] && IsLower(w[0]) && forall k :: 0 <= k < |w| ==> w[k] != ' '
  }

  /** A whole word of `a + r` that ends inside `a`, where `r` starts with a
      non-word character, is a whole word of `a`. */
  lemma WordInPrefix(a: string, r: string, u: string, p: int)
    requires r != [] && !IsWordChar(r[0])
    requires WordAt(a + r, u, p) && p + |u| <= |a|
    ensures WordAt(a, u, p)
  {
    var q := a + r;
    assert q[p..p + |u|] == a[p..p + |u|];
    if p > 0 { assert q[p - 1] == a[p - 1]; }
    if p < |a| { assert q[p] == a[p]; }
    if p + |u| > 0 { assert q[p + |u| - 1] == a[p + |u| - 1]; }
    if p + |u| < |a| { assert q[p + |u|] == a[p + |u|]; } else { assert q[p + |u|] == r[0]; }
  }

  /** A whole word of `l + b` that starts inside `b`, where `l` ends with a
      non-word character, is a whole word of `b`. */
  lemma WordInSuffix(l: string, b: string, u: string, p: int)
    requires l != [] && !IsWordChar(l[|l| - 1])
    requires WordAt(l + b, u, p) && p >= |l|
    ensures WordAt(b, u, p - |l|)
  {
    var q := l + b;
    var p' := p - |l|;
    assert q[p..p + |u|] == b[p'..p' + |u|];
    if p' > 0 { assert q[p - 1] == b[p' - 1]; } else { assert q[p - 1] == l[|l| - 1]; }
    if p' < |b| { assert q[p] == b[p']; }
    if p' + |u| > 0 { assert q[p + |u| - 1] == b[p' + |u| - 1]; }
    if p' + |u| < |b| { assert q[p + |u|] == b[p' + |u|]; }
  }

  /** A whole word that holds no copy of the separator `c` lies on one side of it. */
  lemma WordBesideSeparator(a: string, c: char, b: string, u: string)
    requires !IsWordChar(c) && c !in u
    requires HasWord(a + [c] + b, u)
    ensures HasWord(a, u) || HasWord(b, u)
  {
    var q := a + [c] + b;
    var p :| 0 <= p <= |q| - |u| && WordAt(q, u, p);
    assert p + |u| <= |a| || p > |a| by {
      assert q[|a|] == c;
    }
    if p + |u| <= |a| {
      assert q == a + ([c] + b);
      WordInPrefix(a, [c] + b, u, p);
    } else {
      WordInSuffix(a + [c], b, u, p);
    }
  }

  /** Inside one run of word characters the only whole word is the run itself. */
  lemma WholeRun(t: string, u: string)
    requires u != [] && forall k :: 0 <= k < |t| ==> IsWordChar(t[k])
    requires HasWord(t, u)
    ensures u == t
  {
    var p :| 0 <= p <= |t| - |u| && WordAt(t, u, p);
    assert IsWordChar(t[p]);
    assert p == 0;
    assert IsWordChar(t[|u| - 1]);
    assert t[..|u|] == u;
  }

  /** A word whose first character does not occur in `t` is not a whole word of it. */
  lemma MissingHead(t: string, u: string)
    requires u != [] && forall k :: 0 <= k < |t| ==> t[k] != u[0]
    ensures !HasWord(t, u)
  {
    forall p | 0 <= p <= |t| - |u| ensures !WordAt(t, u, p) {
      assert t[p..p + |u|][0] == t[p];
    }
  }

  predicate RowWords(ws: seq<string>) { forall w | w in ws :: TableWord(w) }

  /** Every alternative of every row of `table` is a table word. */
  predicate TableWords(table: seq<Entry>) { forall e | e in table :: RowWords(e.words) }







  /** Every whole word of `q` that has the shape of a table alternative is one of `toks`. */
  ghost predicate WordsAmong(q: string, toks: seq<string>) {
    forall u :: TableWord(u) && HasWord(q, u) ==> u in toks
  }

  /** No alternative of any row of `table` is one of `toks`. */
  predicate Avoids(table: seq<Entry>, toks: seq<string>) {
    forall e, w | e in table && w in e.words :: w !in toks
  }

  /** The words of `a b` are those of `a` and those of `b`. */
  lemma WordsOfSpaced(a: string, b: string, ta: seq<string>, tb: seq<string>)
    requires WordsAmong(a, ta) && WordsAmong(b, tb)
    ensures WordsAmong(a + " " + b, ta + tb)
  {
    forall u | TableWord(u) && HasWord(a + " " + b, u) ensures u in ta + tb {
      assert a + " " + b == a + [' '] + b;
      WordBesideSeparator(a, ' ', b, u);
    }
  }

  /** A run of word characters has itself as its only word. */
  lemma WordsOfRun(t: string)
    requires t != [] && forall k :: 0 <= k < |t| ==> IsWordChar(t[k])
    ensures WordsAmong(t, [t])
  {
    forall u | TableWord(u) && HasWord(t, u) ensures u in [t] {
      WholeRun(t, u);
    }
  }

  /** Text without lower-case letters (digits, `-`) has no table word. */
  lemma WordsOfNonLetters(t: string)
    requires forall k :: 0 <= k < |t| ==> !IsLower(t[k])
    ensures WordsAmong(t, [])
  {
    forall u | TableWord(u) ensures !HasWord(t, u) {
      MissingHead(t, u);
    }
  }

  /** No row matches when the table avoids every table-shaped word of `q`. */
  lemma NoRowMatches(table: seq<Entry>, q: string, toks: seq<string>)
    requires forall k :: 0 <= k < |table| ==> table[k].name != ""
    requires TableWords(table) && WordsAmong(q, toks) && Avoids(table, toks)
    ensures FirstMatch(table, q) == ""
  {
    forall i | 0 <= i < |table| ensures !MatchesEntry(q, table[i].words) {
      assert table[i] in table;
      forall j | 0 <= j < |table[i].words| ensures !HasWord(q, table[i].words[j]) {
        assert table[i].words[j] in table[i].words;
      }
    }
    FirstMatchIsFirstMatchingRow(table, q);
  }

  /** Row `r` is chosen when it matches and the rows before it avoid every
      table-shaped word of `q`. */
  lemma RowMatches(table: seq<Entry>, q: string, toks: seq<string>, r: nat)
    requires forall k :: 0 <= k < |table| ==> table[k].name != ""
    requires TableWords(table) && WordsAmong(q, toks)
    requires r < |table| && MatchesEntry(q, table[r].words) && Avoids(table[..r], toks)
    ensures FirstMatch(table, q) == table[r].name
  {
    FirstMatchIsFirstMatchingRow(table, q);
    forall i | 0 <= i < r ensures !MatchesEntry(q, table[i].words) {
      assert table[i] in table && table[i] in table[..r];
      forall j | 0 <= j < |table[i].words| ensures !HasWord(q, table[i].words[j]) {
        assert table[i].words[j] in table[i].words;
      }
    }
  }

  /** The hand-coded `\b w \b` search: tries every offset. */
  method TestWord(q: string, w: string) returns (found: bool)
    ensures found == HasWord(q, w)
  {
    var p := 0;
    while p + |w| <= |q|
      invariant 0 <= p
      invariant forall p' :: 0 <= p' < p ==> !WordAt(q, w, p')
      decreases |q| - p
    {
      if q[p..p + |w|] == w && Boundary(q, p) && Boundary(q, p + |w|) {
        assert WordAt(q, w, p);
        return true;
      }
      p := p + 1;
    }
    return false;
  }

  /** `pattern.test(query)`: tries the alternatives in order. */
  method TestEntry(q: string, words: seq<string>) returns (found: bool)
    ensures found == MatchesEntry(q, words)
  {
    for i := 0 to |words|
      invariant forall i' :: 0 <= i' < i ==> !HasWord(q, words[i'])
    {
      found := TestWord(q, words[i]);
      if found {
        return;
      }
    }
    return false;
  }

  /** `for (const [name, pattern] of Object.entries(table)) if (pattern.test(query)) { ...; break; }` */
  method ScanTable(table: seq<Entry>, q: string) returns (name: string)
    ensures name == FirstMatch(table, q)
  {
    name := "";
    var i := 0;
    while i < |table|
      invariant 0 <= i <= |table|
      invariant FirstMatch(table, q) == FirstMatch(table[i..], q)
    {
      assert table[i..][1..] == table[i + 1..];
      var matched := TestEntry(q, table[i].words);
      if matched {
        name := table[i].name;
        break;
      }
      i := i + 1;
    }
  }

  // ---------------------------------------------------------------------------
  // Numbers: `\s*`, `\d+`, and the two price shapes

  /** Where a greedy run of digits starting at `i` stops. */
  function DigitsEnd(q: string, i: nat): (e: nat)
    requires i <= |q|
    ensures i <= e <= |q|
    ensures AllDigits(q[i..e])
    ensures e < |q| ==> !IsDigit(q[e])
    decreases |q| - i
  {
    if i < |q| && IsDigit(q[i]) then
      var e := DigitsEnd(q, i + 1);
      assert q[i..e] == [q[i]] + q[i + 1..e];
      e
    else i
  }

  /** A digit run from `i` to a non-digit (or the end) at `e` ends at `e`. */
  lemma DigitsEndAt(q: string, i: nat, e: nat)
    requires i <= e <= |q| && (forall k :: i <= k < e ==> IsDigit(q[k]))
    requires e < |q| ==> !IsDigit(q[e])
    ensures DigitsEnd(q, i) == e
  {
  }

  /** `k\s*(\d+)` matched at offset `p`: the value of the digits, if any follow. */
  function NumberAfter(q: string, k: string, p: nat): Option<nat>
    requires p <= |q|
  {
    if OccursAt(q, k, p) then
      var j := SkipSpaces(q, p + |k|);
      var e := DigitsEnd(q, j);
      if j < e then Some(DecimalValue(q[j..e])) else None
    else None
  }

  /** `(k1|k2|...)\s*(\d+)` at offset `p`: the alternatives are tried in order. */
  function KeywordNumberAt(q: string, kws: seq<string>, p: nat): Option<nat>
    requires p <= |q|
  {
    if kws == [] then None
    else if NumberAfter(q, kws[0], p).Some? then NumberAfter(q, kws[0], p)
    else KeywordNumberAt(q, kws[1..], p)
  }

  /** The first `Some` at index `p` or later: the leftmost offset at which a
      pattern matches (`String.prototype.match` without the `g` flag). */
  function FirstSome<T>(xs: seq<Option<T>>, p: nat): Option<T>
    requires p <= |xs|
    decreases |xs| - p
  {
    if p == |xs| then None
    else if xs[p].Some? then xs[p]
    else FirstSome(xs, p + 1)
  }

  /** The result of `(k1|k2|...)\s*(\d+)` at every offset 0 .. |q|. */
  function KeywordMatches(q: string, kws: seq<string>): (ms: seq<Option<nat>>)
    ensures |ms| == |q| + 1
  {
    seq(|q| + 1, p requires 0 <= p <= |q| => KeywordNumberAt(q, kws, p))
  }

  /** `(\d+)\s*-\s*(\d+)` matched at offset `p`. */
  function RangeAt(q: string, p: nat): Option<PriceRange>
    requires p <= |q|
  {
    var e1 := DigitsEnd(q, p);
    if p < e1 then RangeAfter(q, DecimalValue(q[p..e1]), e1) else None
  }

  /** `\s*-\s*(\d+)` matched at offset `i`, after a first number `low`. */
  function RangeAfter(q: string, low: nat, i: nat): Option<PriceRange>
    requires i <= |q|
  {
    var j := SkipSpaces(q, i);
    if j < |q| && q[j] == '-' then
      var j2 := SkipSpaces(q, j + 1);
      var e2 := DigitsEnd(q, j2);
      if j2 < e2 then Some(PriceRange(low, DecimalValue(q[j2..e2]))) else None
    else None
  }

  /** The result of `(\d+)\s*-\s*(\d+)` at every offset 0 .. |q|. */
  function RangeMatches(q: string): (ms: seq<Option<PriceRange>>)
    ensures |ms| == |q| + 1
  {
    seq(|q| + 1, p requires 0 <= p <= |q| => RangeAt(q, p))
  }

  /** `p'` is the first index at or after `p` holding a `Some`. */
  predicate LeftmostSomeAt<T>(xs: seq<Option<T>>, p: nat, p': nat) {
    p <= p' < |xs| && xs[p'].Some? && forall k :: p <= k < p' ==> xs[k].None?
  }

  /** FirstSome finds the leftmost match, or reports that no offset matches. */
  lemma {:induction false} FirstSomeIsLeftmost<T>(xs: seq<Option<T>>, p: nat)
    requires p <= |xs|
    ensures FirstSome(xs, p).None? <==> forall p' :: p <= p' < |xs| ==> xs[p'].None?
    ensures FirstSome(xs, p).Some? ==> exists p': nat :: LeftmostSomeAt(xs, p, p') && xs[p'] == FirstSome(xs, p)
    decreases |xs| - p
  {
    if p < |xs| {
      if xs[p].Some? {
        assert LeftmostSomeAt(xs, p, p);
      } else {
        FirstSomeIsLeftmost(xs, p + 1);
        if FirstSome(xs, p + 1).Some? {
          var p': nat :| LeftmostSomeAt(xs, p + 1, p') && xs[p'] == FirstSome(xs, p + 1);
          assert LeftmostSomeAt(xs, p, p');
        }
      }
    }
  }

  /** The leftmost `Some` is the one FirstSome returns. */
  lemma FirstSomeAt<T>(xs: seq<Option<T>>, p: nat, p': nat)
    requires LeftmostSomeAt(xs, p, p')
    ensures FirstSome(xs, p) == xs[p']
  {
    FirstSomeIsLeftmost(xs, p);
    var k: nat :| LeftmostSomeAt(xs, p, k) && xs[k] == FirstSome(xs, p);
    assert !(k < p') && !(p' < k);
  }

  /** With no `Some` at or after `p`, FirstSome finds nothing. */
  lemma FirstSomeNone<T>(xs: seq<Option<T>>, p: nat)
    requires p <= |xs| && forall k :: p <= k < |xs| ==> xs[k].None?
    ensures FirstSome(xs, p).None?
  {
    FirstSomeIsLeftmost(xs, p);
  }

  /** A keyword-number match at `p` needs one of the keywords to occur there;
      in particular `q` holds that keyword's first two characters at `p`. */
  lemma {:induction false} KeywordNeedsHead(q: string, kws: seq<string>, p: nat)
    requires p <= |q|
    requires forall j :: 0 <= j < |kws| ==> |kws[j]| >= 2
    ensures KeywordNumberAt(q, kws, p).Some? ==>
      exists j :: 0 <= j < |kws| && OccursAt(q, kws[j], p) && p + 1 < |q| && q[p] == kws[j][0] && q[p + 1] == kws[j][1]
    decreases |kws|
  {
    if kws != [] {
      if NumberAfter(q, kws[0], p).Some? {
        assert q[p..p + |kws[0]|][0] == q[p] && q[p..p + |kws[0]|][1] == q[p + 1];
      } else {
        KeywordNeedsHead(q, kws[1..], p);
        if KeywordNumberAt(q, kws, p).Some? {
          var j :| 0 <= j < |kws[1..]| && OccursAt(q, kws[1..][j], p) && p + 1 < |q|
            && q[p] == kws[1..][j][0] && q[p + 1] == kws[1..][j][1];
          assert kws[j + 1] == kws[1..][j];
        }
      }
    }
  }

  /** An under-keyword match at `k` starts with "un", "be", "le" or "up". */
  lemma UnderNeedsHead(q: string, k: nat)
    requires k <= |q|
    ensures KeywordNumberAt(q, UnderKeywords, k).Some? ==> (k + 1 < |q| &&
      ((q[k] == 'u' && (q[k + 1] == 'n' || q[k + 1] == 'p')) || (q[k] == 'b' && q[k + 1] == 'e') || (q[k] == 'l' && q[k + 1] == 'e')))
  {
    KeywordNeedsHead(q, UnderKeywords, k);
  }

  /** An above-keyword match at `k` starts with "ab", "ov" or "mo". */
  lemma AboveNeedsHead(q: string, k: nat)
    requires k <= |q|
    ensures KeywordNumberAt(q, AboveKeywords, k).Some? ==> (k + 1 < |q| &&
      ((q[k] == 'a' && q[k + 1] == 'b') || (q[k] == 'o' && q[k + 1] == 'v') || (q[k] == 'm' && q[k + 1] == 'o')))
  {
    KeywordNeedsHead(q, AboveKeywords, k);
  }

  /** A range match at `p` starts with a digit and has a `-` further on. */
  lemma RangeNeedsDash(q: string, p: nat)
    requires p <= |q|
    ensures RangeAt(q, p).Some? ==> p < |q| && IsDigit(q[p]) && exists k :: p < k < |q| && q[k] == '-'
  {
    if RangeAt(q, p).Some? {
      var e1 := DigitsEnd(q, p);
      assert q[p..e1][0] == q[p];
      var j := SkipSpaces(q, e1);
      assert p < j < |q| && q[j] == '-';
    }
  }

  method SkipSpacesFrom(q: string, i: nat) returns (j: nat)
    requires i <= |q|
    ensures j == SkipSpaces(q, i)
  {
    j := i;
    while j < |q| && IsSpace(q[j])
      invariant i <= j <= |q|
      invariant SkipSpaces(q, j) == SkipSpaces(q, i)
    {
      j := j + 1;
    }
  }

  /** Reads a greedy run of digits starting at `i`, as `parseInt` would read it. */
  method ReadDigits(q: string, i: nat) returns (e: nat, value: nat)
    requires i <= |q|
    ensures e == DigitsEnd(q, i)
    ensures value == DecimalValue(q[i..e])
  {
    e, value := i, 0;
    while e < |q| && IsDigit(q[e])
      invariant i <= e <= |q|
      invariant DigitsEnd(q, e) == DigitsEnd(q, i)
      invariant AllDigits(q[i..e]) && value == DecimalValue(q[i..e])
    {
      assert q[i..e + 1][..e - i] == q[i..e];
      value := value * 10 + DigitValue(q[e]);
      e := e + 1;
    }
  }

  method MatchNumberAfter(q: string, k: string, p: nat) returns (m: Option<nat>)
    requires p <= |q|
    ensures m == NumberAfter(q, k, p)
  {
    if p + |k| <= |q| && q[p..p + |k|] == k {
      var j := SkipSpacesFrom(q, p + |k|);
      var e, value := ReadDigits(q, j);
      m := if j < e then Some(value) else None;
    } else {
      m := None;
    }
  }

  method MatchKeywordNumberAt(q: string, kws: seq<string>, p: nat) returns (m: Option<nat>)
    requires p <= |q|
    ensures m == KeywordNumberAt(q, kws, p)
  {
    var i := 0;
    while i < |kws|
      invariant 0 <= i <= |kws|
      invariant KeywordNumberAt(q, kws, p) == KeywordNumberAt(q, kws[i..], p)
    {
      assert kws[i..][1..] == kws[i + 1..];
      m := MatchNumberAfter(q, kws[i], p);
      if m.Some? {
        return;
      }
      i := i + 1;
    }
    m := None;
  }

  /** `query.match(/(k1|k2|...)\s*(\d+)/)`: the captured number of the leftmost match. */
  method FindKeywordNumber(q: string, kws: seq<string>) returns (m: Option<nat>)
    ensures m == FirstSome(KeywordMatches(q, kws), 0)
  {
    ghost var ms := KeywordMatches(q, kws);
    var p := 0;
    while true
      invariant 0 <= p <= |q|
      invariant FirstSome(ms, 0) == FirstSome(ms, p)
      decreases |q| - p
    {
      m := MatchKeywordNumberAt(q, kws, p);
      if m.Some? || p == |q| {
        return;
      }
      p := p + 1;
    }
  }

  method MatchRangeAt(q: string, p: nat) returns (m: Option<PriceRange>)
    requires p <= |q|
    ensures m == RangeAt(q, p)
  {
    var e1, low := ReadDigits(q, p);
    if p < e1 {
      m := MatchRangeAfter(q, low, e1);
    } else {
      m := None;
    }
  }

  method MatchRangeAfter(q: string, low: nat, i: nat) returns (m: Option<PriceRange>)
    requires i <= |q|
    ensures m == RangeAfter(q, low, i)
  {
    var j := SkipSpacesFrom(q, i);
    if j < |q| && q[j] == '-' {
      var j2 := SkipSpacesFrom(q, j + 1);
      var e2, high := ReadDigits(q, j2);
      m := if j2 < e2 then Some(PriceRange(low, high)) else None;
    } else {
      m := None;
    }
  }

  /** `query.match(/(\d+)\s*-\s*(\d+)/)`: both captured numbers of the leftmost match. */
  method FindRange(q: string) returns (m: Option<PriceRange>)
    ensures m == FirstSome(RangeMatches(q), 0)
  {
    ghost var ms := RangeMatches(q);
    var p := 0;
    while true
      invariant 0 <= p <= |q|
      invariant FirstSome(ms, 0) == FirstSome(ms, p)
      decreases |q| - p
    {
      m := MatchRangeAt(q, p);
      if m.Some? || p == |q| {
        return;
      }
      p := p + 1;
    }
  }

  // ---------------------------------------------------------------------------
  // processSearchQuery

  /** `parseInt(...) || 500` for a parsed run of digits. */
  function OrDefaultPrice(n: nat): nat {
    if n == 0 then DefaultPrice else n
  }

  /** The price chain: under/below/less than/upto first, then N-M, then above/over/more than. */
  function PriceOf(q: string): Option<PriceRange> {
    match FirstSome(KeywordMatches(q, UnderKeywords), 0)
    case Some(n) => Some(PriceRange(0, OrDefaultPrice(n)))
    case None =>
      match FirstSome(RangeMatches(q), 0)
      case Some(r) => Some(r)
      case None =>
        match FirstSome(KeywordMatches(q, AboveKeywords), 0)
        case Some(n) => Some(PriceRange(OrDefaultPrice(n), PriceCeiling))
        case None => None
  }

  /** What `processSearchQuery` returns for a raw input. */
  function Interpret(searchQuery: string): ParsedQuery {
    if searchQuery == "" then ParsedQuery("", "", None, "", None)
    else
      var q := Trim(ToLower(searchQuery));
      ParsedQuery(FirstMatch(Styles, q), FirstMatch(Categories, q), PriceOf(q), FirstMatch(Colors, q), Some(q))
  }

  /** `processSearchQuery`: fills the result field by field. */
  method ProcessSearchQuery(searchQuery: string) returns (result: ParsedQuery)
    ensures result == Interpret(searchQuery)
  {
    if searchQuery == "" {
      return ParsedQuery("", "", None, "", None);
    }
    var query := Trim(ToLower(searchQuery));
    result := ParsedQuery("", "", None, "", Some(query));

    var underMatch := FindKeywordNumber(query, UnderKeywords);
    var rangeMatch := FindRange(query);
    var aboveMatch := FindKeywordNumber(query, AboveKeywords);
    if underMatch.Some? {
      result := result.(priceRange := Some(PriceRange(0, OrDefaultPrice(underMatch.value))));
    } else if rangeMatch.Some? {
      result := result.(priceRange := Some(PriceRange(rangeMatch.value.min, rangeMatch.value.max)));
    } else if aboveMatch.Some? {
      result := result.(priceRange := Some(PriceRange(OrDefaultPrice(aboveMatch.value), PriceCeiling)));
    }

    var category := ScanTable(Categories, query);
    result := result.(category := category);
    var style := ScanTable(Styles, query);
    result := result.(style := style);
    var color := ScanTable(Colors, query);
    result := result.(color := color);
  }

  /** Empty input gives empty fields, no price range and no original query; any
      other input keeps its lower-cased, trimmed text. */
  lemma InterpretEmptyAndOriginal(searchQuery: string)
    ensures searchQuery == "" ==> Interpret(searchQuery) == ParsedQuery("", "", None, "", None)
    ensures searchQuery != "" ==> Interpret(searchQuery).originalQuery == Some(Trim(ToLower(searchQuery)))
  {
  }

  /** A query that is already lower-case and trimmed is interpreted as it stands. */
  lemma InterpretNormalized(q: string)
    requires q != [] && !IsSpace(q[0]) && !IsSpace(q[|q| - 1])
    requires forall i :: 0 <= i < |q| ==> !IsUpper(q[i])
    ensures Interpret(q) == ParsedQuery(FirstMatch(Styles, q), FirstMatch(Categories, q), PriceOf(q), FirstMatch(Colors, q), Some(q))
  {
    LowerOfLower(q);
    TrimOfTrimmed(q);
  }

  /** Each of category, style and colour is the first row of its own table that
      matches, or '' when none does, whatever the other two dimensions found. */
  lemma InterpretDimensionsAreFirstMatches(searchQuery: string)
    requires searchQuery != ""
    ensures var q := Trim(ToLower(searchQuery)); var r := Interpret(searchQuery);
      && (r.category == "" <==> forall i :: 0 <= i < |Categories| ==> !MatchesEntry(q, Categories[i].words))
      && (r.style == "" <==> forall i :: 0 <= i < |Styles| ==> !MatchesEntry(q, Styles[i].words))
      && (r.color == "" <==> forall i :: 0 <= i < |Colors| ==> !MatchesEntry(q, Colors[i].words))
  {
    var q := Trim(ToLower(searchQuery));
    var r := Interpret(searchQuery);
    assert r.category == FirstMatch(Categories, q) && r.style == FirstMatch(Styles, q) && r.color == FirstMatch(Colors, q);
    TablesAreWellFormed();
    FirstMatchIsFirstMatchingRow(Categories, q);
    FirstMatchIsFirstMatchingRow(Styles, q);
    FirstMatchIsFirstMatchingRow(Colors, q);
  }

  /** No keyword-number match at any offset: the match sequence is all None. */
  lemma NoKeywordMatch(q: string, kws: seq<string>)
    requires forall k :: 0 <= k <= |q| ==> KeywordNumberAt(q, kws, k).None?
    ensures FirstSome(KeywordMatches(q, kws), 0).None?
  {
    var ms := KeywordMatches(q, kws);
    forall k | 0 <= k < |ms| ensures ms[k].None? {
      assert ms[k] == KeywordNumberAt(q, kws, k);
    }
    FirstSomeNone(ms, 0);
  }

  /** No range match at any offset: the range match sequence is all None. */
  lemma NoRangeMatch(q: string)
    requires forall k :: 0 <= k <= |q| ==> RangeAt(q, k).None?
    ensures FirstSome(RangeMatches(q), 0).None?
  {
    var ms := RangeMatches(q);
    forall k | 0 <= k < |ms| ensures ms[k].None? {
      assert ms[k] == RangeAt(q, k);
    }
    FirstSomeNone(ms, 0);
  }

  /** The under rule comes first: when the leftmost under-keyword match is at
      `p` with number `n`, the range is [0, n], a 0 turning into 500. */
  lemma UnderRuleAt(q: string, p: nat, n: nat)
    requires p <= |q| && KeywordNumberAt(q, UnderKeywords, p) == Some(n)
    requires forall k :: 0 <= k < p ==> KeywordNumberAt(q, UnderKeywords, k).None?
    ensures PriceOf(q) == Some(PriceRange(0, if n == 0 then 500 else n))
  {
    FirstSomeAt(KeywordMatches(q, UnderKeywords), 0, p);
  }

  /** With no under-keyword match anywhere, the leftmost `lo-hi` match gives
      [lo, hi] as written, even when lo > hi. */
  lemma RangeRuleAt(q: string, p: nat, lo: nat, hi: nat)
    requires forall k :: 0 <= k <= |q| ==> KeywordNumberAt(q, UnderKeywords, k).None?
    requires p <= |q| && RangeAt(q, p) == Some(PriceRange(lo, hi))
    requires forall k :: 0 <= k < p ==> RangeAt(q, k).None?
    ensures PriceOf(q) == Some(PriceRange(lo, hi))
  {
    NoKeywordMatch(q, UnderKeywords);
    FirstSomeAt(RangeMatches(q), 0, p);
  }

  /** With neither an under-keyword nor a range match anywhere, the leftmost
      above-keyword match at `p` with number `n` gives [n, 10000], a 0
      turning into 500. */
  lemma AboveRuleAt(q: string, p: nat, n: nat)
    requires forall k :: 0 <= k <= |q| ==> KeywordNumberAt(q, UnderKeywords, k).None? && RangeAt(q, k).None?
    requires p <= |q| && KeywordNumberAt(q, AboveKeywords, p) == Some(n)
    requires forall k :: 0 <= k < p ==> KeywordNumberAt(q, AboveKeywords, k).None?
    ensures PriceOf(q) == Some(PriceRange(if n == 0 then 500 else n, 10000))
  {
    NoKeywordMatch(q, UnderKeywords);
    NoRangeMatch(q);
    FirstSomeAt(KeywordMatches(q, AboveKeywords), 0, p);
  }

  /** A query matching none of the three shapes anywhere has no range. */
  lemma NoPriceRule(q: string)
    requires forall k :: 0 <= k <= |q| ==>
      KeywordNumberAt(q, UnderKeywords, k).None? && RangeAt(q, k).None? && KeywordNumberAt(q, AboveKeywords, k).None?
    ensures PriceOf(q).None?
  {
    NoKeywordMatch(q, UnderKeywords);
    NoRangeMatch(q);
    NoKeywordMatch(q, AboveKeywords);
  }

  // ---------------------------------------------------------------------------
  // handleSubmit: the query parameters

  /** The parameter names `handleSubmit` can emit, in the order it emits them. */
  datatype ParamName = StyleParam | CategoryParam | ColorParam | MinPrice | MaxPrice | SearchParam

  /** The name as it appears in the query string. */
  function WireName(n: ParamName): string {
    match n
    case StyleParam => "style"
    case CategoryParam => "category"
    case ColorParam => "color"
    case MinPrice => "min_price"
    case MaxPrice => "max_price"
    case SearchParam => "search"
  }

  function Rank(n: ParamName): nat {
    match n
    case StyleParam => 0
    case CategoryParam => 1
    case ColorParam => 2
    case MinPrice => 3
    case MaxPrice => 4
    case SearchParam => 5
  }

  datatype Param = Param(name: ParamName, value: string)

  predicate HasParam(ps: seq<Param>, name: ParamName) {
    exists i :: 0 <= i < |ps| && ps[i].name == name
  }

  /** Whether `handleSubmit` has something to send under name `n` for `r`:
      the non-empty dimensions, both price bounds when there is a range, and
      `search` only when nothing else is there. */
  predicate Wanted(n: ParamName, r: ParsedQuery) {
    match n
    case StyleParam => r.style != ""
    case CategoryParam => r.category != ""
    case ColorParam => r.color != ""
    case MinPrice => r.priceRange.Some?
    case MaxPrice => r.priceRange.Some?
    case SearchParam => r.style == "" && r.category == "" && r.color == "" && r.priceRange.None?
  }

  /** The value sent under name `n`: the field itself, a price bound in
      decimal, or the raw query text for `search`. */
  function Expected(n: ParamName, r: ParsedQuery, raw: string): string {
    match n
    case StyleParam => r.style
    case CategoryParam => r.category
    case ColorParam => r.color
    case MinPrice => if r.priceRange.Some? then NatToDecimal(r.priceRange.value.min) else ""
    case MaxPrice => if r.priceRange.Some? then NatToDecimal(r.priceRange.value.max) else ""
    case SearchParam => raw
  }

  predicate InRankOrder(ps: seq<Param>) {
    forall i, j :: 0 <= i < j < |ps| ==> Rank(ps[i].name) < Rank(ps[j].name)
  }

  predicate RanksBelow(ps: seq<Param>, k: nat) {
    forall i :: 0 <= i < |ps| ==> Rank(ps[i].name) < k
  }

  predicate CarriesExpected(ps: seq<Param>, r: ParsedQuery, raw: string) {
    forall i :: 0 <= i < |ps| ==> ps[i].value == Expected(ps[i].name, r, raw)
  }

  /** The emitted parameters for parsed query `r` and raw text `raw`: exactly
      the wanted names, each once, in the order style, category, color,
      min_price, max_price, search, each with its expected value. */
  predicate DescribesQuery(ps: seq<Param>, r: ParsedQuery, raw: string) {
    && InRankOrder(ps)
    && CarriesExpected(ps, r, raw)
    && (forall n :: HasParam(ps, n) <==> Wanted(n, r))
  }

  /** The parameter for name `n`, if `n` is wanted. */
  function Segment(n: ParamName, r: ParsedQuery, raw: string): seq<Param> {
    if Wanted(n, r) then [Param(n, Expected(n, r, raw))] else []
  }

  /** The wanted parameters among `ns`, in the order of `ns`. */
  function Emit(ns: seq<ParamName>, r: ParsedQuery, raw: string): seq<Param>
    decreases |ns|
  {
    if ns == [] then [] else Emit(ns[..|ns| - 1], r, raw) + Segment(ns[|ns| - 1], r, raw)
  }

  /** Every name except `search`, in rank order. */
  const Dimensions: seq<ParamName> := [StyleParam, CategoryParam, ColorParam, MinPrice, MaxPrice]

  predicate StrictlyRanked(ns: seq<ParamName>) {
    forall i, j :: 0 <= i < j < |ns| ==> Rank(ns[i]) < Rank(ns[j])
  }

  lemma StrictlyRankedInit(ns: seq<ParamName>)
    requires ns != [] && StrictlyRanked(ns)
    ensures StrictlyRanked(ns[..|ns| - 1])
  {
    var init := ns[..|ns| - 1];
    forall i, j | 0 <= i < j < |init| ensures Rank(init[i]) < Rank(init[j]) {
      assert init[i] == ns[i] && init[j] == ns[j];
    }
  }

  /** Emitting names gives exactly the wanted ones among them. */
  lemma {:induction false} EmitNames(ns: seq<ParamName>, r: ParsedQuery, raw: string)
    ensures forall n :: HasParam(Emit(ns, r, raw), n) <==> n in ns && Wanted(n, r)
    decreases |ns|
  {
    if ns != [] {
      var init := ns[..|ns| - 1];
      var prev := Emit(init, r, raw);
      var last := Segment(ns[|ns| - 1], r, raw);
      var e := prev + last;
      EmitNames(init, r, raw);
      forall n ensures HasParam(e, n) <==> n in ns && Wanted(n, r) {
        if HasParam(e, n) {
          var i :| 0 <= i < |e| && e[i].name == n;
          if i < |prev| {
            assert e[i] == prev[i];
            assert HasParam(prev, n);
            var m :| 0 <= m < |init| && init[m] == n;
            assert ns[m] == n;
          }
        }
        if n in ns && Wanted(n, r) {
          if n == ns[|ns| - 1] {
            assert e[|prev|].name == n;
          } else {
            var m :| 0 <= m < |ns| && ns[m] == n;
            assert init[m] == n;
            var i :| 0 <= i < |prev| && prev[i].name == n;
            assert e[i] == prev[i];
          }
        }
      }
    } else {
      forall n ensures !HasParam(Emit(ns, r, raw), n) {}
    }
  }

  /** Emitting a rank-ordered list of names keeps the rank order. */
  lemma {:induction false} EmitOrdered(ns: seq<ParamName>, r: ParsedQuery, raw: string)
    requires StrictlyRanked(ns)
    ensures InRankOrder(Emit(ns, r, raw))
    decreases |ns|
  {
    if ns != [] {
      var init := ns[..|ns| - 1];
      var prev := Emit(init, r, raw);
      var last := Segment(ns[|ns| - 1], r, raw);
      var e := prev + last;
      StrictlyRankedInit(ns);
      EmitOrdered(init, r, raw);
      EmitNames(init, r, raw);
      forall k | 0 <= k < |prev| ensures Rank(prev[k].name) < Rank(ns[|ns| - 1]) {
        assert HasParam(prev, prev[k].name);
        var m :| 0 <= m < |init| && init[m] == prev[k].name;
        assert init[m] == ns[m];
      }
      forall i, j | 0 <= i < j < |e| ensures Rank(e[i].name) < Rank(e[j].name) {
        if j < |prev| {
          assert e[i] == prev[i] && e[j] == prev[j];
        } else {
          assert e[i] == prev[i];
        }
      }
    }
  }

  /** Every emitted parameter carries its expected value. */
  lemma {:induction false} EmitValues(ns: seq<ParamName>, r: ParsedQuery, raw: string)
    ensures CarriesExpected(Emit(ns, r, raw), r, raw)
    decreases |ns|
  {
    if ns != [] {
      var init := ns[..|ns| - 1];
      var prev := Emit(init, r, raw);
      var last := Segment(ns[|ns| - 1], r, raw);
      var e := prev + last;
      EmitValues(init, r, raw);
      forall i | 0 <= i < |e| ensures e[i].value == Expected(e[i].name, r, raw) {
        if i < |prev| {
          assert e[i] == prev[i];
        }
      }
    }
  }

  lemma EmitDimensions(r: ParsedQuery, raw: string)
    ensures Emit(Dimensions, r, raw) == Segment(StyleParam, r, raw) + Segment(CategoryParam, r, raw)
      + Segment(ColorParam, r, raw) + Segment(MinPrice, r, raw) + Segment(MaxPrice, r, raw)
  {
    var d := Dimensions;
    assert d[..4] == [StyleParam, CategoryParam, ColorParam, MinPrice];
    assert d[..4][..3] == [StyleParam, CategoryParam, ColorParam];
    assert d[..4][..3][..2] == [StyleParam, CategoryParam];
    assert d[..4][..3][..2][..1] == [StyleParam];
    assert [StyleParam][..0] == [];
    var s1, s2, s3, s4, s5 := Segment(StyleParam, r, raw), Segment(CategoryParam, r, raw),
      Segment(ColorParam, r, raw), Segment(MinPrice, r, raw), Segment(MaxPrice, r, raw);
    assert Emit([StyleParam], r, raw) == [] + s1 == s1;
    assert Emit([StyleParam, CategoryParam], r, raw) == s1 + s2;
    assert Emit([StyleParam, CategoryParam, ColorParam], r, raw) == s1 + s2 + s3;
    assert Emit(d[..4], r, raw) == s1 + s2 + s3 + s4;
  }

  /** When none of style .. max_price is emitted, a lone `search` with the
      raw text describes the query. */
  lemma SearchAloneDescribes(r: ParsedQuery, raw: string)
    requires Emit(Dimensions, r, raw) == []
    ensures DescribesQuery([Param(SearchParam, raw)], r, raw)
  {
    var e := Emit(Dimensions, r, raw);
    EmitNames(Dimensions, r, raw);
    var ps := [Param(SearchParam, raw)];
    assert !HasParam(e, StyleParam) && !HasParam(e, CategoryParam) && !HasParam(e, ColorParam) && !HasParam(e, MinPrice);
    forall n ensures HasParam(ps, n) <==> Wanted(n, r) {
      if n != SearchParam {
        assert n in Dimensions;
        assert !HasParam(e, n);
      } else {
        assert ps[0].name == n;
      }
    }
  }

  /** When some of style .. max_price is emitted, no `search` is added and
      the emitted parameters describe the query. */
  lemma DimensionsDescribe(r: ParsedQuery, raw: string)
    requires Emit(Dimensions, r, raw) != []
    ensures DescribesQuery(Emit(Dimensions, r, raw), r, raw)
  {
    var e := Emit(Dimensions, r, raw);
    assert StrictlyRanked(Dimensions);
    EmitOrdered(Dimensions, r, raw);
    EmitValues(Dimensions, r, raw);
    EmitNames(Dimensions, r, raw);
    assert HasParam(e, e[0].name);
    forall n ensures HasParam(e, n) <==> Wanted(n, r) {
      if n != SearchParam {
        assert n in Dimensions;
      }
    }
  }

  /** A query with no style, category, colour or range is described by one
      parameter list only: the lone `search` with the raw text. */
  lemma SearchOnly(ps: seq<Param>, r: ParsedQuery, raw: string)
    requires r.style == "" && r.category == "" && r.color == "" && r.priceRange.None?
    requires DescribesQuery(ps, r, raw)
    ensures ps == [Param(SearchParam, raw)]
  {
    assert HasParam(ps, SearchParam);
    forall i | 0 <= i < |ps| ensures ps[i].name == SearchParam {
      assert HasParam(ps, ps[i].name);
    }
    if |ps| > 1 {
      RankOrderNamesDiffer(ps, 0, 1);
      assert false;
    }
  }

  /** Parameters in strict rank order carry pairwise different names. */
  lemma RankOrderNamesDiffer(ps: seq<Param>, i: nat, j: nat)
    requires InRankOrder(ps) && i < j < |ps|
    ensures ps[i].name != ps[j].name
  {
  }

  /** The `URLSearchParams` appends of `handleSubmit`. */
  method BuildParams(processed: ParsedQuery, query: string) returns (ps: seq<Param>)
    ensures DescribesQuery(ps, processed, query)
  {
    ps := [];
    if processed.style != "" {
      ps := ps + [Param(StyleParam, processed.style)];
    }
    ghost var e := Segment(StyleParam, processed, query);
    assert ps == e;
    if processed.category != "" {
      ps := ps + [Param(CategoryParam, processed.category)];
    }
    e := e + Segment(CategoryParam, processed, query);
    assert ps == e;
    if processed.color != "" {
      ps := ps + [Param(ColorParam, processed.color)];
    }
    e := e + Segment(ColorParam, processed, query);
    assert ps == e;
    if processed.priceRange.Some? {
      ps := ps + [Param(MinPrice, NatToDecimal(processed.priceRange.value.min))];
      ps := ps + [Param(MaxPrice, NatToDecimal(processed.priceRange.value.max))];
    }
    e := e + Segment(MinPrice, processed, query) + Segment(MaxPrice, processed, query);
    assert ps == e;
    EmitDimensions(processed, query);
    if ps == [] {
      SearchAloneDescribes(processed, query);
      ps := [Param(SearchParam, query)];
    } else {
      DimensionsDescribe(processed, query);
    }
  }

  /** `handleSubmit` up to the request: a blank query is not submitted (None);
      otherwise the parameters describe the interpretation of the raw query. */
  method SubmitParams(query: string) returns (params: Option<seq<Param>>)
    ensures params.None? <==> Trim(query) == ""
    ensures params.Some? ==> DescribesQuery(params.value, Interpret(query), query)
  {
    if Trim(query) == "" {
      return None;
    }
    var processed := ProcessSearchQuery(query);
    var ps := BuildParams(processed, query);
    return Some(ps);
  }

  // ---------------------------------------------------------------------------
  // The query-analysis badge

  /** The non-empty strings of `xs`, in order. */
  function Present(xs: seq<string>): (r: seq<string>)
    ensures forall i :: 0 <= i < |r| ==> r[i] != ""
  {
    if xs == [] then []
    else if xs[0] == "" then Present(xs[1..])
    else [xs[0]] + Present(xs[1..])
  }

  /** One badge part: kept when non-empty. */
  function Keep(x: string): seq<string> {
    if x == "" then [] else [x]
  }

  lemma PresentFour(a: string, b: string, c: string, d: string)
    ensures Present([a, b, c, d]) == Keep(a) + Keep(b) + Keep(c) + Keep(d)
  {
    var xs := [a, b, c, d];
    assert xs[1..] == [b, c, d];
    assert xs[1..][1..] == [c, d];
    assert xs[1..][1..][1..] == [d];
    assert xs[1..][1..][1..][1..] == [];
    assert Present([d]) == Keep(d);
    assert Present([c, d]) == Keep(c) + Keep(d);
    assert Present([b, c, d]) == Keep(b) + (Keep(c) + Keep(d));
    assert Present(xs) == Keep(a) + (Keep(b) + (Keep(c) + Keep(d)));
  }

  /** A join whose first part is non-empty is non-empty. */
  lemma JoinNonEmpty(parts: seq<string>, sep: string)
    requires parts != [] && parts[0] != ""
    ensures Join(parts, sep) != ""
  {
    if |parts| > 1 {
      assert Join(parts, sep)[0] == parts[0][0];
    }
  }

  /** `₹min-max`. */
  function PriceText(r: PriceRange): string {
    "₹" + NatToDecimal(r.min) + "-" + NatToDecimal(r.max)
  }

  /** The badge: the present parts of style, category, color and price joined
      with ' • ', or 'general' when the join is empty. */
  method BadgeLabel(processed: ParsedQuery) returns (text: string)
    ensures var parts := Present([processed.style, processed.category, processed.color,
                                  if processed.priceRange.Some? then PriceText(processed.priceRange.value) else ""]);
      text == if parts == [] then "general" else Join(parts, " • ")
  {
    ghost var price := if processed.priceRange.Some? then PriceText(processed.priceRange.value) else "";
    var parts: seq<string> := [];
    if processed.style != "" {
      parts := parts + [processed.style];
    }
    ghost var e := Keep(processed.style);
    assert parts == e;
    if processed.category != "" {
      parts := parts + [processed.category];
    }
    e := e + Keep(processed.category);
    assert parts == e;
    if processed.color != "" {
      parts := parts + [processed.color];
    }
    e := e + Keep(processed.color);
    assert parts == e;
    if processed.priceRange.Some? {
      parts := parts + [PriceText(processed.priceRange.value)];
    }
    e := e + Keep(price);
    assert parts == e;
    PresentFour(processed.style, processed.category, processed.color, price);
    text := Join(parts, " • ");
    if parts != [] {
      JoinNonEmpty(parts, " • ");
    }
    if text == "" {
      text := "general";
    }
  }

  // ---------------------------------------------------------------------------
  // handleImageUpload

  datatype UploadedFile = UploadedFile(mimeType: string, size: nat)

  datatype UploadOutcome = NoFile | Rejected(message: string) | Accepted(file: UploadedFile)

  const MaxImageBytes: nat := 10 * 1024 * 1024

  /** The checks before an image reaches the search step. */
  function ImageUpload(file: Option<UploadedFile>): UploadOutcome {
    match file
    case None => NoFile
    case Some(f) =>
      if !StartsWith(f.mimeType, "image/") then Rejected("Please select a valid image file.")
      else if f.size > MaxImageBytes then Rejected("Image size must be less than 10MB.")
      else Accepted(f)
  }

  /** A file reaches the search step exactly when its type starts with 'image/'
      and it is at most 10 MiB; the type is checked first. */
  lemma ImageUploadAcceptsOnlySmallImages(f: UploadedFile)
    ensures ImageUpload(Some(f)).Accepted? <==> StartsWith(f.mimeType, "image/") && f.size <= 10485760
    ensures ImageUpload(Some(f)).Accepted? ==> ImageUpload(Some(f)).file == f
    ensures !StartsWith(f.mimeType, "image/") ==> ImageUpload(Some(f)) == Rejected("Please select a valid image file.")
    ensures ImageUpload(None) == NoFile
  {
  }
}
