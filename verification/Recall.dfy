/** Budgeted recall: the token budget (walrusos/engine/token_budget.py:7-27), the
    ranking (walrusos/engine/ranking.py:20-101) and the assembly of a context
    (walrusos/engine/context.py:134-250). */
module Recall {
  import opened Prelude
  import opened StableSort

  // --------------------------------------------------------------------- budget

  /** `max(1, len(text) // 4)` */
  function Estimate(text: string): (n: nat)
    ensures |text| <= 4 * n + 3 && if |text| >= 4 then 4 * n <= |text| else n == 1
  {
    Max(1, |text| / 4)
  }

  function TotalEstimate(parts: seq<string>): nat {
    if parts == [] then 0 else TotalEstimate(parts[..|parts| - 1]) + Estimate(parts[|parts| - 1])
  }

  class TokenBudget {
    const maxTokens: int
    var used: nat

    constructor (maxTokens: int)
      ensures this.maxTokens == maxTokens && used == 0
    {
      this.maxTokens, used := maxTokens, 0;
    }

    method Add(text: string) returns (ok: bool)
      modifies this
      ensures ok <==> old(used) + Estimate(text) <= maxTokens
      ensures used == if ok then old(used) + Estimate(text) else old(used)
    {
      var cost := Estimate(text);
      if used + cost <= maxTokens {
        used := used + cost;
        return true;
      }
      return false;
    }
  }

  // -------------------------------------------------------------------- ranking

  /** An event with its payload, as far as recall looks at them: content is the
      joined non-empty public strings of the payload.  A memory event's
      timestamp is the clock when it is read (walrusos/core/models/memory.py:70-74),
      so among memory events the recency term follows the order of reading, that
      is their place in the list, and not the time they were written. */
  datatype Item = Item(
    id: string, agentId: string, author: string, memoryType: string, tags: seq<string>, epoch: int,
    timestamp: Option<real>, importance: Option<real>, content: string, summary: string)

  /** The significant words of a text, and the current time. */
  datatype Env = Env(words: string -> set<string>, now: real)

  function Overlap(env: Env, query: string, content: string): (r: real)
    ensures 0.0 <= r <= 1.0
    ensures r > 0.0 <==> env.words(query) * env.words(content) != {}
  {
    var q, c := env.words(query), env.words(content);
    if q == {} || c == {} then 0.0 else Share(q, c)
  }

  function Share(q: set<string>, c: set<string>): (r: real)
    requires q != {}
    ensures 0.0 <= r <= 1.0
    ensures r > 0.0 <==> q * c != {}
  {
    SubsetSize(q * c, q);
    Quotient(|q * c| as real, |q| as real);
    |q * c| as real / |q| as real
  }

  lemma {:induction false} Quotient(x: real, y: real)
    requires 0.0 <= x <= y && y > 0.0
    ensures 0.0 <= x / y <= 1.0 && (x / y > 0.0 <==> x > 0.0)
  {
    var q := x / y;
    assert q * y == x;
    assert (1.0 - q) * y == y - x;
  }

  /** Missing times count as the present. */
  function TimeOf(env: Env, x: Item): real {
    if x.timestamp.Some? then x.timestamp.value else env.now
  }

  function Oldest(env: Env, items: seq<Item>): (r: real)
    requires items != []
    ensures forall i :: 0 <= i < |items| ==> r <= TimeOf(env, items[i])
  {
    var t := TimeOf(env, items[0]);
    if |items| == 1 then t
    else
      var r := Oldest(env, items[1..]);
      if r < t then r else t
  }

  function Newest(env: Env, items: seq<Item>): (r: real)
    requires items != []
    ensures forall i :: 0 <= i < |items| ==> TimeOf(env, items[i]) <= r
  {
    var t := TimeOf(env, items[0]);
    if |items| == 1 then t
    else
      var r := Newest(env, items[1..]);
      if r > t then r else t
  }

  /** `max(newest - oldest, 1)` */
  function Span(oldest: real, newest: real): (r: real)
    ensures r >= 1.0 && r >= newest - oldest
  {
    if newest - oldest > 1.0 then newest - oldest else 1.0
  }

  /** A missing importance counts as one half, and so does zero. */
  function ImportanceOf(x: Item): real {
    if x.importance.Some? && x.importance.value != 0.0 then x.importance.value else 0.5
  }

  function Boosted(x: Item, base: real): real {
    var kind := if x.memoryType == "" then "observation" else x.memoryType;
    if kind == "summary" || kind == "decision" then base * 1.2 else base
  }

  function Recency(t: real, oldest: real, span: real): real
    requires span > 0.0
  {
    (t - oldest) / span
  }

  function Score(env: Env, query: string, oldest: real, span: real, x: Item): real
    requires span > 0.0
  {
    var recency := Recency(TimeOf(env, x), oldest, span);
    Boosted(x, 0.5 * Overlap(env, query, x.content) + 0.3 * recency + 0.2 * ImportanceOf(x))
  }

  /** What the ranking sorts by, over all the items. */
  function ScoreIn(env: Env, query: string, items: seq<Item>): Item -> real {
    if items == [] then (x: Item) => 0.0
    else
      var oldest := Oldest(env, items);
      var span := Span(oldest, Newest(env, items));
      (x: Item) => Score(env, query, oldest, span, x)
  }

  function Descending(key: Item -> real): Item -> real {
    (x: Item) => -key(x)
  }

  function Ranked(env: Env, query: string, items: seq<Item>): seq<Item> {
    SortBy(items, Descending(ScoreIn(env, query, items)))
  }

  /** Importances from 0 to 1 give scores above 0 and up to 1.2. */
  lemma {:induction false} ScoreRange(env: Env, query: string, items: seq<Item>, i: nat)
    requires i < |items| && (items[i].importance.Some? ==> 0.0 <= items[i].importance.value <= 1.0)
    ensures 0.0 < ScoreIn(env, query, items)(items[i]) <= 1.2
  {
    var oldest, newest := Oldest(env, items), Newest(env, items);
    hide Overlap, Oldest, Newest;
    Quotient(TimeOf(env, items[i]) - oldest, Span(oldest, newest));
  }

  /** The ranking is the stable sort by descending score: nothing is lost, and
      a returned item never scores below a later one. */
  lemma {:induction false} RankedIsSort(env: Env, query: string, items: seq<Item>)
    ensures var r := Ranked(env, query, items);
      && |r| == |items| && IsStableSort(r, items, Descending(ScoreIn(env, query, items)))
      && forall i, j :: 0 <= i < j < |r| ==> ScoreIn(env, query, items)(r[i]) >= ScoreIn(env, query, items)(r[j])
  {
    var key := Descending(ScoreIn(env, query, items));
    hide ScoreIn, SortBy;
    SortByCorrect(items, key);
    var r := Ranked(env, query, items);
    forall i, j | 0 <= i < j < |r| ensures ScoreIn(env, query, items)(r[i]) >= ScoreIn(env, query, items)(r[j]) {
      assert key(r[i]) <= key(r[j]);
    }
  }

  /** Of two items alike but for their time, the newer scores higher. */
  lemma {:induction false} NewerScoresHigher(env: Env, query: string, items: seq<Item>, i: nat, j: nat)
    requires i < |items| && j < |items|
    requires items[i] == items[j].(id := items[i].id, timestamp := items[i].timestamp)
    ensures TimeOf(env, items[i]) > TimeOf(env, items[j])
      <==> ScoreIn(env, query, items)(items[i]) > ScoreIn(env, query, items)(items[j])
  {
    var oldest, newest := Oldest(env, items), Newest(env, items);
    hide Overlap, Oldest, Newest, ImportanceOf;
    var span := Span(oldest, newest);
    RecencyMonotone(TimeOf(env, items[i]), TimeOf(env, items[j]), oldest, span);
  }

  lemma {:induction false} RecencyMonotone(t: real, u: real, oldest: real, span: real)
    requires span > 0.0
    ensures t > u <==> Recency(t, oldest, span) > Recency(u, oldest, span)
  {
    var x, y := Recency(t, oldest, span), Recency(u, oldest, span);
    assert x * span == t - oldest && y * span == u - oldest;
    if x > y {
      assert (x - y) * span > 0.0;
    } else {
      assert (y - x) * span >= 0.0;
    }
  }

  /** The overlap is the share of the query's words found in the content. */
  lemma {:induction false} OverlapIsShare(env: Env, query: string, content: string)
    requires env.words(query) != {}
    ensures Overlap(env, query, content) * |env.words(query)| as real == |env.words(query) * env.words(content)| as real
  {
    var q, c := env.words(query), env.words(content);
    if c == {} {
      assert q * c == {};
    } else {
      ShareTimes(|q * c| as real, |q| as real);
    }
  }

  lemma {:induction false} ShareTimes(x: real, y: real)
    requires y > 0.0
    ensures (x / y) * y == x
  {
  }

  /** Relevance, recency and importance weigh 5 to 3 to 2: what one item has
      ahead of another in the one, it can lose in the others. */
  lemma {:induction false} ScoreTradeoff(env: Env, query: string, items: seq<Item>, i: nat, j: nat)
    requires i < |items| && j < |items|
    requires {items[i].memoryType, items[j].memoryType} !! {"summary", "decision"}
    ensures var key := ScoreIn(env, query, items);
      var relevance := Overlap(env, query, items[i].content) - Overlap(env, query, items[j].content);
      var importance := ImportanceOf(items[i]) - ImportanceOf(items[j]);
      var time := TimeOf(env, items[i]) - TimeOf(env, items[j]);
      var span := Span(Oldest(env, items), Newest(env, items));
      key(items[i]) > key(items[j]) <==> 5.0 * relevance + 3.0 * (time / span) + 2.0 * importance > 0.0
  {
    var oldest, newest := Oldest(env, items), Newest(env, items);
    hide Overlap, Oldest, Newest, ImportanceOf, TimeOf;
    RecencyGap(TimeOf(env, items[i]), TimeOf(env, items[j]), oldest, Span(oldest, newest));
  }

  lemma {:induction false} RecencyGap(t: real, u: real, oldest: real, span: real)
    requires span > 0.0
    ensures Recency(t, oldest, span) - Recency(u, oldest, span) == (t - u) / span
  {
    assert (t - oldest) / span - (u - oldest) / span == (t - u) / span;
  }

  /** A summary or a decision scores 1.2 times what it would score as an
      observation, and an importance of zero counts like a missing one. */
  lemma {:induction false} ScoreBoost(env: Env, query: string, items: seq<Item>, x: Item)
    requires items != [] && (x.memoryType == "summary" || x.memoryType == "decision")
    ensures var key := ScoreIn(env, query, items);
      && key(x) == 1.2 * key(x.(memoryType := "observation"))
      && key(x.(importance := Some(0.0))) == key(x.(importance := None)) == key(x.(importance := Some(0.5)))
  {
    hide Overlap, Oldest, Newest, Recency;
  }

  /** `rank_events` */
  method RankEvents(env: Env, query: string, items: seq<Item>) returns (r: seq<Item>)
    ensures r == Ranked(env, query, items)
  {
    hide SortBy;
    if items == [] {
      NothingRanked(env, query);
      return [];
    }
    r := SortBy(items, Descending(ScoreIn(env, query, items)));
  }

  lemma {:induction false} NothingRanked(env: Env, query: string)
    ensures Ranked(env, query, []) == []
  {
  }

  // ------------------------------------------------------------------- assembly

  /** What has been assembled so far. */
  datatype Draft = Draft(parts: seq<string>, sources: seq<string>, used: nat)

  const BLANK := Draft([], [], 0)

  const BLANK_LINE: string := "\n\n"

  predicate Fits(d: Draft, max: int, line: string) {
    d.used + Estimate(line) <= max
  }

  function With(d: Draft, line: string, id: string): Draft {
    Draft(d.parts + [line], d.sources + [id], d.used + Estimate(line))
  }

  function Label(x: Item): string {
    if x.author != "" then x.author
    else if x.agentId != "" then x.agentId[..Min(8, |x.agentId|)]
    else "agent"
  }

  function Line(x: Item): string {
    "[" + Label(x) + "] " + x.content
  }

  function RecentLine(x: Item): string {
    "[recent] " + Line(x)
  }

  predicate IsCheckpoint(x: Item) {
    x.memoryType == "summary" && "checkpoint" in x.tags
  }

  /** The first checkpoint with the largest epoch. */
  function LatestCheckpoint(items: seq<Item>): (r: Option<Item>)
    ensures r.Some? ==> r.value in items && IsCheckpoint(r.value)
    ensures forall i :: 0 <= i < |items| && IsCheckpoint(items[i]) ==> r.Some? && items[i].epoch <= r.value.epoch
  {
    if items == [] then None
    else
      var last := items[|items| - 1];
      var before := LatestCheckpoint(items[..|items| - 1]);
      if IsCheckpoint(last) && (before.None? || last.epoch > before.value.epoch) then Some(last) else before
  }

  function SummaryLine(x: Item): string {
    "[Summary] " + x.summary
  }

  function Opening(max: int, withSummary: bool, items: seq<Item>): Draft {
    var cp := LatestCheckpoint(items);
    if withSummary && cp.Some? && cp.value.summary != "" && Fits(BLANK, max, SummaryLine(cp.value)) then
      With(BLANK, SummaryLine(cp.value), cp.value.id)
    else BLANK
  }

  /** Second phase: adding in rank order, stopping at the first line too long. */
  function AddRanked(max: int, d: Draft, ranked: seq<Item>): Draft
    decreases |ranked|
  {
    if ranked == [] then d
    else
      var x := ranked[0];
      if x.id in d.sources || x.content == "" then AddRanked(max, d, ranked[1..])
      else if Fits(d, max, Line(x)) then AddRanked(max, With(d, Line(x), x.id), ranked[1..])
      else d
  }

  /** Third phase: every recent item that fits. */
  function AddRecent(max: int, d: Draft, recent: seq<Item>): Draft
    decreases |recent|
  {
    if recent == [] then d
    else
      var x := recent[0];
      if x.id in d.sources || x.content == "" || !Fits(d, max, RecentLine(x)) then AddRecent(max, d, recent[1..])
      else AddRecent(max, With(d, RecentLine(x), x.id), recent[1..])
  }

  function NotSummary(items: seq<Item>): seq<Item> {
    Filter((x: Item) => x.memoryType != "summary", items)
  }

  function ByEpoch(): Item -> real {
    (x: Item) => -(x.epoch as real)
  }

  /** The two most recent of the items. */
  function MostRecent(items: seq<Item>): seq<Item> {
    var sorted := SortBy(items, ByEpoch());
    sorted[..Min(2, |sorted|)]
  }

  function AfterRanked(env: Env, query: string, max: int, withSummary: bool, items: seq<Item>): Draft {
    AddRanked(max, Opening(max, withSummary, items), Ranked(env, query, NotSummary(items)))
  }

  function Recalled(env: Env, query: string, max: int, withSummary: bool, items: seq<Item>): Draft {
    AddRecent(max, AfterRanked(env, query, max, withSummary, items), MostRecent(NotSummary(items)))
  }

  // ------------------------------------------------------------------ accounting

  /** The books balance and stay within the budget. */
  ghost predicate Sound(d: Draft, max: int) {
    && d.used == TotalEstimate(d.parts) && d.used <= Max(0, max)
    && |d.sources| == |d.parts| && Distinct(d.sources)
  }

  lemma {:induction false} WithSound(d: Draft, max: int, line: string, id: string)
    requires Sound(d, max) && Fits(d, max, line) && id !in d.sources
    ensures Sound(With(d, line, id), max)
  {
    hide Estimate;
    assert (d.parts + [line])[..|d.parts|] == d.parts;
  }

  lemma {:induction false} AddRankedSound(max: int, d: Draft, ranked: seq<Item>)
    requires Sound(d, max)
    ensures Sound(AddRanked(max, d, ranked), max)
    decreases |ranked|
  {
    hide Sound, Fits, With, Line;
    if ranked != [] {
      var x := ranked[0];
      if x.id in d.sources || x.content == "" {
        AddRankedSound(max, d, ranked[1..]);
      } else if Fits(d, max, Line(x)) {
        WithSound(d, max, Line(x), x.id);
        AddRankedSound(max, With(d, Line(x), x.id), ranked[1..]);
      }
    }
  }

  lemma {:induction false} AddRecentSound(max: int, d: Draft, recent: seq<Item>)
    requires Sound(d, max)
    ensures Sound(AddRecent(max, d, recent), max)
    decreases |recent|
  {
    hide Sound, Fits, With, RecentLine;
    if recent != [] {
      var x := recent[0];
      if x.id in d.sources || x.content == "" || !Fits(d, max, RecentLine(x)) {
        AddRecentSound(max, d, recent[1..]);
      } else {
        WithSound(d, max, RecentLine(x), x.id);
        AddRecentSound(max, With(d, RecentLine(x), x.id), recent[1..]);
      }
    }
  }

  /** For every stream, query and budget: the tokens used are the sum of the
      parts' estimates and within the budget, and there is one distinct source
      for each part. */
  lemma {:induction false} RecallSound(env: Env, query: string, max: int, withSummary: bool, items: seq<Item>)
    ensures Sound(Recalled(env, query, max, withSummary, items), max)
  {
    hide Ranked, MostRecent, NotSummary, LatestCheckpoint, Sound, Fits, AddRanked, AddRecent;
    BlankSound(max);
    var d := Opening(max, withSummary, items);
    var cp := LatestCheckpoint(items);
    if withSummary && cp.Some? && cp.value.summary != "" && Fits(BLANK, max, SummaryLine(cp.value)) {
      WithSound(BLANK, max, SummaryLine(cp.value), cp.value.id);
    }
    AddRankedSound(max, d, Ranked(env, query, NotSummary(items)));
    AddRecentSound(max, AfterRanked(env, query, max, withSummary, items), MostRecent(NotSummary(items)));
  }

  lemma {:induction false} BlankSound(max: int)
    ensures Sound(BLANK, max)
  {
  }

  lemma {:induction false} ContextLength(parts: seq<string>)
    requires parts != []
    ensures |Join(BLANK_LINE, parts)| + 2 <= 9 * TotalEstimate(parts)
  {
    var n := |parts| - 1;
    assert TotalEstimate(parts) == TotalEstimate(parts[..n]) + Estimate(parts[n]);
    if n > 0 {
      ContextLength(parts[..n]);
    }
  }

  /** A context that is not empty has at most 9 * used - 2 characters. */
  lemma {:induction false} RecallLength(env: Env, query: string, max: int, withSummary: bool, items: seq<Item>)
    ensures var d := Recalled(env, query, max, withSummary, items);
      d.parts != [] ==> |Join(BLANK_LINE, d.parts)| <= 9 * d.used - 2 && d.used <= max
  {
    hide Recalled, Join, TotalEstimate;
    RecallSound(env, query, max, withSummary, items);
    var d := Recalled(env, query, max, withSummary, items);
    if d.parts != [] {
      ContextLength(d.parts);
    }
  }

  /** The bound is met whenever every part has seven characters. */
  lemma {:induction false} LengthBoundTight(parts: seq<string>)
    requires parts != [] && forall i :: 0 <= i < |parts| ==> |parts[i]| == 7
    ensures |Join(BLANK_LINE, parts)| == 9 * TotalEstimate(parts) - 2
  {
    var n := |parts| - 1;
    assert Estimate(parts[n]) == 1;
    if n > 0 {
      LengthBoundTight(parts[..n]);
    }
  }

  // ------------------------------------------------------------ what is recalled

  /** part is x's content under the given name, marked if it is a recent one. */
  predicate CreditedTo(part: string, recent: bool, name: string, x: Item) {
    part == (if recent then "[recent] " else "") + "[" + name + "] " + x.content
  }

  /** part is the whole content of x under its author's name, or else the first
      eight characters of its agent's id, or else "agent". */
  ghost predicate Quotes(part: string, recent: bool, x: Item) {
    && x.content != "" && x.memoryType != "summary"
    && (x.author != "" ==> CreditedTo(part, recent, x.author, x))
    && (x.author == "" && 0 < |x.agentId| <= 8 ==> CreditedTo(part, recent, x.agentId, x))
    && (x.author == "" && |x.agentId| > 8 ==> CreditedTo(part, recent, x.agentId[..8], x))
    && (x.author == "" && x.agentId == "" ==> CreditedTo(part, recent, "agent", x))
  }

  /** part is the summary of x, a checkpoint with the largest epoch. */
  ghost predicate Summarizes(part: string, x: Item, items: seq<Item>) {
    && x.memoryType == "summary" && "checkpoint" in x.tags && x.summary != "" && part == "[Summary] " + x.summary
    && forall i :: 0 <= i < |items| && items[i].memoryType == "summary" && "checkpoint" in items[i].tags ==>
         items[i].epoch <= x.epoch
  }

  /** part comes from an item of the stream with the given id. */
  ghost predicate Tells(part: string, id: string, items: seq<Item>, opening: bool, recent: bool) {
    exists i :: 0 <= i < |items| && items[i].id == id &&
      if opening then Summarizes(part, items[i], items) else Quotes(part, recent, items[i])
  }

  /** Every part comes from the item its source names: the first from a
      checkpoint if there is an opening, and those from n on are recent ones. */
  ghost predicate AllTold(parts: seq<string>, sources: seq<string>, items: seq<Item>, opening: bool, n: nat) {
    && |parts| == |sources| && n <= |parts|
    && forall k :: 0 <= k < |parts| ==> Tells(parts[k], sources[k], items, opening && k == 0, k >= n)
  }

  lemma {:induction false} LineQuotes(items: seq<Item>, i: nat)
    requires i < |items| && items[i].content != "" && items[i].memoryType != "summary"
    ensures Tells(Line(items[i]), items[i].id, items, false, false)
    ensures Tells(RecentLine(items[i]), items[i].id, items, false, true)
  {
    var x := items[i];
    assert Quotes(Line(x), false, x);
    assert "[recent] " + ("[" + Label(x) + "] " + x.content) == "[recent] " + "[" + Label(x) + "] " + x.content;
    assert Quotes(RecentLine(x), true, x);
  }

  lemma {:induction false} PlainItem(items: seq<Item>, x: Item) returns (i: nat)
    requires x in NotSummary(items)
    ensures i < |items| && items[i] == x && x.memoryType != "summary"
  {
    var plain := NotSummary(items);
    var j :| 0 <= j < |plain| && plain[j] == x;
    assert plain[j] in items;
    i :| 0 <= i < |items| && items[i] == x;
  }

  lemma {:induction false} ToldMore(d: Draft, items: seq<Item>, opening: bool, n: nat, line: string, id: string,
                                    recent: bool)
    requires AllTold(d.parts, d.sources, items, opening, n) && (opening ==> d.parts != [])
    requires Tells(line, id, items, false, recent) && (recent || n == |d.parts|)
    ensures var d' := With(d, line, id);
      AllTold(d'.parts, d'.sources, items, opening, if recent then n else n + 1)
  {
    hide Tells, Estimate;
  }

  lemma {:induction false} RankedTold(max: int, d: Draft, ranked: seq<Item>, items: seq<Item>, opening: bool)
    requires AllTold(d.parts, d.sources, items, opening, |d.parts|) && (opening ==> d.parts != [])
    requires forall x :: x in ranked ==> x in NotSummary(items)
    ensures var r := AddRanked(max, d, ranked);
      AllTold(r.parts, r.sources, items, opening, |r.parts|) && (opening ==> r.parts != [])
    decreases |ranked|
  {
    hide AllTold, Tells, Line, RecentLine, NotSummary, Fits;
    if ranked != [] {
      var x := ranked[0];
      if x.id in d.sources || x.content == "" {
        RankedTold(max, d, ranked[1..], items, opening);
      } else if Fits(d, max, Line(x)) {
        var i := PlainItem(items, x);
        LineQuotes(items, i);
        ToldMore(d, items, opening, |d.parts|, Line(x), x.id, false);
        RankedTold(max, With(d, Line(x), x.id), ranked[1..], items, opening);
      }
    }
  }

  lemma {:induction false} RecentTold(max: int, d: Draft, recent: seq<Item>, items: seq<Item>, opening: bool, n: nat)
    requires AllTold(d.parts, d.sources, items, opening, n) && (opening ==> d.parts != [])
    requires forall x :: x in recent ==> x in NotSummary(items)
    ensures var r := AddRecent(max, d, recent);
      AllTold(r.parts, r.sources, items, opening, n)
    decreases |recent|
  {
    hide AllTold, Tells, Line, RecentLine, NotSummary, Fits;
    if recent != [] {
      var x := recent[0];
      if x.id in d.sources || x.content == "" || !Fits(d, max, RecentLine(x)) {
        RecentTold(max, d, recent[1..], items, opening, n);
      } else {
        var i := PlainItem(items, x);
        LineQuotes(items, i);
        ToldMore(d, items, opening, n, RecentLine(x), x.id, true);
        RecentTold(max, With(d, RecentLine(x), x.id), recent[1..], items, opening, n);
      }
    }
  }

  lemma {:induction false} OpeningTold(max: int, withSummary: bool, items: seq<Item>)
    ensures var d := Opening(max, withSummary, items);
      AllTold(d.parts, d.sources, items, d.parts != [], |d.parts|)
  {
    var cp := LatestCheckpoint(items);
    if cp.Some? {
      var i :| 0 <= i < |items| && items[i] == cp.value;
      if items[i].summary != "" { assert Summarizes(SummaryLine(items[i]), items[i], items); }
    }
  }

  lemma {:induction false} RankedMembers(env: Env, query: string, items: seq<Item>)
    ensures forall x :: x in Ranked(env, query, items) ==> x in items
    ensures forall x :: x in MostRecent(items) ==> x in items
  {
    SortByMembers(items, Descending(ScoreIn(env, query, items)));
    SortByMembers(items, ByEpoch());
    hide SortBy, ScoreIn;
    forall x | x in Ranked(env, query, items) ensures x in items {
      assert x in multiset(Ranked(env, query, items));
    }
    forall x | x in MostRecent(items) ensures x in items {
      assert x in multiset(SortBy(items, ByEpoch()));
    }
  }

  /** For every stream, query and budget each part of the context is a whole
      item of the stream, the one its source names: the checkpoint's summary in
      the opening part, if there is one, and elsewhere an event's content. */
  lemma {:induction false} RecallQuotes(env: Env, query: string, max: int, withSummary: bool, items: seq<Item>)
    ensures var d := Recalled(env, query, max, withSummary, items);
      AllTold(d.parts, d.sources, items, Opening(max, withSummary, items).parts != [],
              |AfterRanked(env, query, max, withSummary, items).parts|)
  {
    hide AllTold, Ranked, MostRecent, NotSummary, Opening, AddRanked, AddRecent;
    var d := Opening(max, withSummary, items);
    OpeningTold(max, withSummary, items);
    RankedMembers(env, query, NotSummary(items));
    RankedTold(max, d, Ranked(env, query, NotSummary(items)), items, d.parts != []);
    var r := AfterRanked(env, query, max, withSummary, items);
    RecentTold(max, r, MostRecent(NotSummary(items)), items, d.parts != [], |r.parts|);
  }

  /** cp is a checkpoint with a summary that fits, and LatestCheckpoint's choice
      among those with the largest epoch. */
  predicate OpensWith(cp: Item, max: int, items: seq<Item>) {
    LatestCheckpoint(items) == Some(cp) && cp.summary != "" && Estimate("[Summary] " + cp.summary) <= max
  }

  lemma {:induction false} OpeningIff(max: int, withSummary: bool, items: seq<Item>)
    ensures var d := Opening(max, withSummary, items);
      && |d.sources| == |d.parts| <= 1
      && (d.parts != [] <==> withSummary && exists cp :: cp in items && OpensWith(cp, max, items))
  {
    hide LatestCheckpoint, Estimate;
  }

  // --------------------------------------------------------------- greedy prefix

  /** The items of the second phase in turn, each id once, none empty. */
  function Candidates(ranked: seq<Item>, seen: seq<string>): seq<Item> {
    if ranked == [] then []
    else if ranked[0].id in seen || ranked[0].content == "" then Candidates(ranked[1..], seen)
    else [ranked[0]] + Candidates(ranked[1..], seen + [ranked[0].id])
  }

  function Cost(items: seq<Item>): nat {
    if items == [] then 0 else Estimate(Line(items[0])) + Cost(items[1..])
  }

  function Lines(items: seq<Item>): seq<string> {
    if items == [] then [] else [Line(items[0])] + Lines(items[1..])
  }

  function Ids(items: seq<Item>): seq<string> {
    if items == [] then [] else [items[0].id] + Ids(items[1..])
  }

  /** d with the first n candidates added. */
  function Extended(d: Draft, items: seq<Item>): Draft {
    Draft(d.parts + Lines(items), d.sources + Ids(items), d.used + Cost(items))
  }

  ghost predicate MaximalPrefix(max: int, used: nat, items: seq<Item>, n: nat) {
    && n <= |items| && (n > 0 ==> used + Cost(items[..n]) <= max)
    && (n < |items| ==> used + Cost(items[..n + 1]) > max)
  }

  /** The second phase takes the longest prefix of the candidates that fits. */
  lemma {:induction false} RankedPartIsGreedyPrefix(max: int, d: Draft, ranked: seq<Item>) returns (n: nat)
    ensures var all := Candidates(ranked, d.sources);
      MaximalPrefix(max, d.used, all, n) && AddRanked(max, d, ranked) == Extended(d, all[..n])
    decreases |ranked|
  {
    hide Line, Estimate;
    var all := Candidates(ranked, d.sources);
    if ranked == [] {
      n := 0;
      assert all[..0] == [] && Extended(d, []) == d;
    } else if ranked[0].id in d.sources || ranked[0].content == "" {
      n := RankedPartIsGreedyPrefix(max, d, ranked[1..]);
    } else {
      var x := ranked[0];
      var rest := Candidates(ranked[1..], d.sources + [x.id]);
      assert all == [x] + rest;
      if Fits(d, max, Line(x)) {
        var d' := With(d, Line(x), x.id);
        var k := RankedPartIsGreedyPrefix(max, d', ranked[1..]);
        n := k + 1;
        assert all[..n] == [x] + rest[..k];
        ExtendedCons(d, x, rest[..k]);
        if k < |rest| {
          assert all[..n + 1] == [x] + rest[..k + 1];
          ExtendedCons(d, x, rest[..k + 1]);
        }
      } else {
        n := 0;
        assert all[..0] == [] && Extended(d, []) == d;
        assert all[..1] == [x] && [x][1..] == [];
        assert Cost([x]) == Estimate(Line(x));
      }
    }
  }

  lemma {:induction false} ExtendedCons(d: Draft, x: Item, rest: seq<Item>)
    ensures Extended(d, [x] + rest) == Extended(With(d, Line(x), x.id), rest)
    ensures Cost([x] + rest) == Estimate(Line(x)) + Cost(rest)
  {
    hide Line, Estimate;
    assert ([x] + rest)[1..] == rest;
    assert d.parts + ([Line(x)] + Lines(rest)) == d.parts + [Line(x)] + Lines(rest);
    assert d.sources + ([x.id] + Ids(rest)) == d.sources + [x.id] + Ids(rest);
  }

  lemma {:induction false} CandidatesCover(ranked: seq<Item>, seen: seq<string>, i: nat)
    requires i < |ranked| && ranked[i].content != ""
    ensures ranked[i].id in seen + Ids(Candidates(ranked, seen))
  {
    var all := Candidates(ranked, seen);
    if ranked[0].id in seen || ranked[0].content == "" {
      if i > 0 {
        CandidatesCover(ranked[1..], seen, i - 1);
      }
    } else {
      var rest := Candidates(ranked[1..], seen + [ranked[0].id]);
      assert all == [ranked[0]] + rest && all[1..] == rest;
      assert Ids(all) == [ranked[0].id] + Ids(rest);
      if i > 0 {
        CandidatesCover(ranked[1..], seen + [ranked[0].id], i - 1);
      }
    }
  }

  lemma {:induction false} AddRecentKeeps(max: int, d: Draft, recent: seq<Item>)
    ensures d.sources <= AddRecent(max, d, recent).sources && d.parts <= AddRecent(max, d, recent).parts
    decreases |recent|
  {
    hide Line, Estimate, RecentLine, Fits;
    if recent != [] {
      var x := recent[0];
      if x.id in d.sources || x.content == "" || !Fits(d, max, RecentLine(x)) {
        AddRecentKeeps(max, d, recent[1..]);
      } else {
        AddRecentKeeps(max, With(d, RecentLine(x), x.id), recent[1..]);
      }
    }
  }

  /** When all the candidates fit, every event with content that is no summary
      is among the sources. */
  lemma {:induction false} EverythingFits(env: Env, query: string, max: int, withSummary: bool, items: seq<Item>,
                                          i: nat)
    requires i < |items| && items[i].memoryType != "summary" && items[i].content != ""
    requires var d := Opening(max, withSummary, items);
      d.used + Cost(Candidates(Ranked(env, query, NotSummary(items)), d.sources)) <= max
    ensures items[i].id in Recalled(env, query, max, withSummary, items).sources
  {
    var plain := NotSummary(items);
    assert items[i] in plain;
    hide Opening, NotSummary, AddRanked, SortBy, Candidates, Cost, MostRecent, Line, Estimate;
    var ranked := Ranked(env, query, plain);
    var d := Opening(max, withSummary, items);
    var n := RankedPartIsGreedyPrefix(max, d, ranked);
    var all := Candidates(ranked, d.sources);
    CostOfPrefix(all, if n < |all| then n + 1 else n);
    assert all[..n] == all;
    SortByCorrect(plain, Descending(ScoreIn(env, query, plain)));
    assert items[i] in ranked;
    var j :| 0 <= j < |ranked| && ranked[j] == items[i];
    CandidatesCover(ranked, d.sources, j);
    AddRecentKeeps(max, AfterRanked(env, query, max, withSummary, items), MostRecent(plain));
  }

  lemma {:induction false} CostOfPrefix(items: seq<Item>, n: nat)
    requires n <= |items|
    ensures Cost(items[..n]) <= Cost(items)
  {
    hide Line, Estimate;
    if n > 0 {
      assert items[..n][1..] == items[1..][..n - 1];
      CostOfPrefix(items[1..], n - 1);
    }
  }

  predicate Present(d: Draft, max: int, x: Item) {
    x.id in d.sources || (x.content != "" && Fits(d, max, RecentLine(x)))
  }

  /** The most recent event is present exactly when its id already was, or it
      has content and its line still fits: the third phase guarantees nothing
      beyond the budget. */
  lemma {:induction false} MostRecentPresentIff(env: Env, query: string, max: int, withSummary: bool, items: seq<Item>)
    requires var recent := MostRecent(NotSummary(items));
      recent != [] && (|recent| > 1 ==> recent[0].id != recent[1].id)
    ensures var x := MostRecent(NotSummary(items))[0];
      var d := AfterRanked(env, query, max, withSummary, items);
      x.id in Recalled(env, query, max, withSummary, items).sources <==> Present(d, max, x)
  {
    var recent := MostRecent(NotSummary(items));
    hide AfterRanked, SortBy, MostRecent, NotSummary, RecentLine, Estimate;
    var d := AfterRanked(env, query, max, withSummary, items);
    MostRecentTwo(NotSummary(items));
    RecentFirst(max, d, recent);
  }

  /** d after the third phase has looked at one event. */
  function AfterFirst(d: Draft, max: int, x: Item): Draft {
    if x.id in d.sources || x.content == "" || !Fits(d, max, RecentLine(x)) then d else With(d, RecentLine(x), x.id)
  }

  /** The two most recent events: the first is present by the condition above,
      the second by the same condition after the first. */
  lemma {:induction false} BothRecentPresentIff(env: Env, query: string, max: int, withSummary: bool, items: seq<Item>)
    requires var recent := MostRecent(NotSummary(items)); |recent| == 2 && recent[0].id != recent[1].id
    ensures var recent := MostRecent(NotSummary(items));
      var d := AfterRanked(env, query, max, withSummary, items);
      var r := Recalled(env, query, max, withSummary, items);
      && (recent[0].id in r.sources <==> Present(d, max, recent[0]))
      && (recent[1].id in r.sources <==> Present(AfterFirst(d, max, recent[0]), max, recent[1]))
  {
    var recent := MostRecent(NotSummary(items));
    hide AfterRanked, SortBy, MostRecent, NotSummary;
    RecentBoth(max, AfterRanked(env, query, max, withSummary, items), recent);
  }

  lemma {:induction false} RecentBoth(max: int, d: Draft, recent: seq<Item>)
    requires |recent| == 2 && recent[0].id != recent[1].id
    ensures var r := AddRecent(max, d, recent);
      && (recent[0].id in r.sources <==> Present(d, max, recent[0]))
      && (recent[1].id in r.sources <==> Present(AfterFirst(d, max, recent[0]), max, recent[1]))
  {
    hide RecentLine, Estimate;
    RecentFirst(max, d, recent);
    var x, y := recent[0], recent[1];
    var d' := AfterFirst(d, max, x);
    assert AddRecent(max, d, recent) == AddRecent(max, d', recent[1..]);
    assert recent[1..][0] == y && recent[1..][1..] == [];
    assert AddRecent(max, d', recent[1..]) == AfterFirst(d', max, y);
  }

  lemma {:induction false} MostRecentTwo(items: seq<Item>)
    ensures |MostRecent(items)| <= 2
  {
    hide SortBy;
  }

  lemma {:induction false} RecentFirst(max: int, d: Draft, recent: seq<Item>)
    requires 0 < |recent| <= 2 && (|recent| > 1 ==> recent[0].id != recent[1].id)
    ensures var x := recent[0];
      x.id in AddRecent(max, d, recent).sources <==> Present(d, max, x)
  {
    hide RecentLine, Estimate;
    var x := recent[0];
    var d' := if x.id in d.sources || x.content == "" || !Fits(d, max, RecentLine(x)) then d
      else With(d, RecentLine(x), x.id);
    assert AddRecent(max, d, recent) == AddRecent(max, d', recent[1..]);
    if |recent| == 2 {
      var y := recent[1];
      assert recent[1..][1..] == [];
      assert AddRecent(max, d', recent[1..]).sources == d'.sources
        || AddRecent(max, d', recent[1..]).sources == d'.sources + [y.id];
    }
  }

  /** The two most recent are events with the largest epochs, latest first. */
  lemma {:induction false} MostRecentAreLatest(items: seq<Item>)
    ensures var r := MostRecent(items);
      && |r| == Min(2, |items|) && (|r| == 2 ==> r[0].epoch >= r[1].epoch)
      && (forall i :: 0 <= i < |r| ==> r[i] in items)
      && (r != [] ==> forall i :: 0 <= i < |items| ==> items[i].epoch <= r[0].epoch)
  {
    hide SortBy;
    var sorted := SortBy(items, ByEpoch());
    SortByCorrect(items, ByEpoch());
    if items != [] {
      forall i | 0 <= i < |items| ensures items[i].epoch <= sorted[0].epoch {
        assert items[i] in sorted;
        var j :| 0 <= j < |sorted| && sorted[j] == items[i];
        assert ByEpoch()(sorted[0]) <= ByEpoch()(sorted[j]);
      }
    }
    if |items| >= 2 {
      assert ByEpoch()(sorted[0]) <= ByEpoch()(sorted[1]);
    }
  }

  // ------------------------------------------------------------------ the method

  datatype Recollection = Recollection(
    context: string, tokenEstimate: nat, eventsConsidered: nat, eventsIncluded: nat, checkpointsIncluded: nat,
    sources: seq<string>)

  /** The second phase's loop. */
  method AddRankedLines(budget: TokenBudget, ranked: seq<Item>, parts: seq<string>, sources: seq<string>)
    returns (parts': seq<string>, sources': seq<string>, included: nat)
    modifies budget
    ensures Draft(parts', sources', budget.used)
      == AddRanked(budget.maxTokens, Draft(parts, sources, old(budget.used)), ranked)
    ensures |sources'| == |sources| + included
  {
    hide Estimate, Line;
    parts', sources', included := parts, sources, 0;
    ghost var start := Draft(parts, sources, budget.used);
    for i := 0 to |ranked|
      invariant |sources'| == |sources| + included
      invariant AddRanked(budget.maxTokens, Draft(parts', sources', budget.used), ranked[i..])
             == AddRanked(budget.maxTokens, start, ranked)
    {
      var x := ranked[i];
      assert ranked[i..][0] == x && ranked[i..][1..] == ranked[i + 1..];
      if x.id in sources' || x.content == "" {
        continue;
      }
      var ok := budget.Add(Line(x));
      if !ok {
        return;
      }
      parts', sources', included := parts' + [Line(x)], sources' + [x.id], included + 1;
    }
  }

  /** The third phase's loop. */
  method AddRecentLines(budget: TokenBudget, recent: seq<Item>, parts: seq<string>, sources: seq<string>)
    returns (parts': seq<string>, sources': seq<string>, included: nat)
    modifies budget
    ensures Draft(parts', sources', budget.used)
      == AddRecent(budget.maxTokens, Draft(parts, sources, old(budget.used)), recent)
    ensures |sources'| == |sources| + included
  {
    hide Estimate, RecentLine;
    parts', sources', included := parts, sources, 0;
    ghost var start := Draft(parts, sources, budget.used);
    for i := 0 to |recent|
      invariant |sources'| == |sources| + included
      invariant AddRecent(budget.maxTokens, Draft(parts', sources', budget.used), recent[i..])
             == AddRecent(budget.maxTokens, start, recent)
    {
      var x := recent[i];
      assert recent[i..][0] == x && recent[i..][1..] == recent[i + 1..];
      if x.id in sources' || x.content == "" {
        continue;
      }
      var ok := budget.Add(RecentLine(x));
      if ok {
        parts', sources', included := parts' + [RecentLine(x)], sources' + [x.id], included + 1;
      }
    }
  }

  /** The context is its parts, separated by blank lines, and each part is a
      whole item of the stream. */
  method BuildRecallContext(env: Env, query: string, maxTokens: int, withSummary: bool, items: seq<Item>)
    returns (r: Recollection, ghost parts: seq<string>, ghost plain: nat)
    ensures IsJoin(r.context, BLANK_LINE, parts)
    ensures AllTold(parts, r.sources, items, r.checkpointsIncluded == 1, plain)
    ensures r.checkpointsIncluded == 1 <==> withSummary && exists cp :: cp in items && OpensWith(cp, maxTokens, items)
    ensures var d := Recalled(env, query, maxTokens, withSummary, items);
      && r.context == Join(BLANK_LINE, parts) && parts == d.parts && r.tokenEstimate == d.used && r.sources == d.sources
      && plain == |AfterRanked(env, query, maxTokens, withSummary, items).parts|
      && r.eventsConsidered == |items|
      && r.eventsIncluded + r.checkpointsIncluded == |d.sources|
      && r.checkpointsIncluded == |Opening(maxTokens, withSummary, items).sources|
  {
    hide Estimate, Ranked, SortBy, NotSummary, MostRecent, LatestCheckpoint, Join, SummaryLine, AddRanked, AddRecent;
    RecallQuotes(env, query, maxTokens, withSummary, items);
    OpeningIff(maxTokens, withSummary, items);
    hide AllTold, OpensWith;
    var budget := new TokenBudget(maxTokens);
    var lines: seq<string>, sources: seq<string> := [], [];
    var checkpoints := 0;
    var cp := LatestCheckpoint(items);
    if withSummary && cp.Some? && cp.value.summary != "" {
      var ok := budget.Add(SummaryLine(cp.value));
      if ok {
        lines, sources, checkpoints := [SummaryLine(cp.value)], [cp.value.id], 1;
      }
    }
    assert Draft(lines, sources, budget.used) == Opening(maxTokens, withSummary, items);
    hide Opening;
    var events := NotSummary(items);
    var ranked := RankEvents(env, query, events);
    var included: nat;
    lines, sources, included := AddRankedLines(budget, ranked, lines, sources);
    plain := |lines|;
    var more: nat;
    lines, sources, more := AddRecentLines(budget, MostRecent(events), lines, sources);
    parts := lines;
    ghost var at := JoinLaysOut(BLANK_LINE, parts);
    r := Recollection(Join(BLANK_LINE, lines), budget.used, |items|, included + more, checkpoints, sources);
  }
}
