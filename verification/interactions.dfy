/**
  The interaction history a client keeps (`LLMInteractionHistory`): a deque
  of past exchanges bounded by `maxlen`, oldest first.  Adding to a full
  deque discards the oldest exchange; a deque of bound zero keeps nothing.

  `get_history(n)` slices with `[-n:]`, which for `n == 0` returns the whole
  history and for a negative `n` drops the `-n` oldest exchanges.  `Recent`
  models that slice as written, and `get_as_messages` (hence the client's
  history methods) goes through it; `Newest` is the evidently intended
  "last `n` exchanges", related to `Recent` by `RecentAgrees`.
 */
module Interactions {

  import opened Base
  import opened Json
  import opened Errors
  import opened LlmFacade

  /** One stored exchange: the prompt and what the response reported. */
  datatype Interaction = Interaction(
    prompt: string,
    response: string,
    model: string,
    provider: string,
    timestamp: Time,
    usage: Json)

  /** The deque: its `maxlen` (`None` for an unbounded deque) and its
      exchanges, oldest first. */
  datatype History = History(maxLen: Option<nat>, entries: seq<Interaction>)

  /** A deque never holds more than its bound. */
  predicate Valid(h: History) {
    h.maxLen.Some? ==> |h.entries| <= h.maxLen.value
  }

  /** The last `n` elements of `s` (all of `s` when it is shorter). */
  function Last<T>(s: seq<T>, n: nat): (r: seq<T>)
    ensures |r| == if |s| <= n then |s| else n
    ensures r == s[|s| - |r|..]
  {
    if |s| <= n then s else s[|s| - n..]
  }

  /** `deque(maxlen=size)`: `None` is unbounded, a bool counts as 0 or 1, a
      negative bound raises `ValueError` and any other value `TypeError`. */
  function New(size: Json): (r: Result<History, Exc>)
    ensures r.Ok? <==> size.JNull? || size.JBool? || (size.JInt? && size.i >= 0)
    ensures r.Ok? ==> r.value.entries == [] && Valid(r.value)
    ensures r.Ok? ==> (r.value.maxLen.None? <==> size.JNull?)
    ensures size.JInt? && size.i >= 0 ==> r.value.maxLen == Some(size.i)
  {
    match size
    case JNull => Ok(History(None, []))
    case JBool(b) => Ok(History(Some(if b then 1 else 0), []))
    case JInt(n) =>
      if n < 0 then Err(Py(ValueError("maxlen must be non-negative")))
      else Ok(History(Some(n), []))
    case _ => Err(Py(TypeError("an integer is required")))
  }

  /** The record `add_interaction` stores for a prompt and its response. */
  function Record(prompt: string, response: Response): Interaction {
    Interaction(prompt, response.content, response.model, response.provider,
                response.timestamp, response.usage)
  }

  /** The exchanges a deque keeps of `s`: the newest `maxlen` of them. */
  function Kept(maxLen: Option<nat>, s: seq<Interaction>): seq<Interaction> {
    match maxLen
    case None => s
    case Some(n) => Last(s, n)
  }

  /** `add_interaction(prompt, response)`: append on the right; a full deque
      drops its oldest exchange. */
  function Add(h: History, prompt: string, response: Response): (r: History)
    ensures r.maxLen == h.maxLen && Valid(r)
    ensures Valid(h) && (h.maxLen.None? || |h.entries| < h.maxLen.value)
            ==> r.entries == h.entries + [Record(prompt, response)]
    ensures Valid(h) && h.maxLen.Some? && 0 < |h.entries| == h.maxLen.value
            ==> r.entries == h.entries[1..] + [Record(prompt, response)]
    ensures h.maxLen == Some(0) ==> r.entries == []
  {
    History(h.maxLen, Kept(h.maxLen, h.entries + [Record(prompt, response)]))
  }

  /** `list(self._history)[-n:]` as written; `None` returns everything. */
  function Recent(h: History, n: Option<int>): (r: seq<Interaction>)
    ensures n.None? ==> r == h.entries
    ensures n.Some? && n.value > 0 ==> r == Last(h.entries, n.value)
    ensures n.Some? && n.value <= 0 ==> r == h.entries[if -n.value <= |h.entries| then -n.value else |h.entries|..]
  {
    match n
    case None => h.entries
    case Some(k) => SliceFrom(h.entries, -k)
  }

  /** Python's `s[start:]`: a negative start counts from the end, and both
      are clipped to the sequence. */
  function SliceFrom<T>(s: seq<T>, start: int): (r: seq<T>)
    ensures start >= 0 ==> r == s[if start <= |s| then start else |s|..]
    ensures start < 0 ==> r == Last(s, -start)
  {
    if start >= 0 then s[if start <= |s| then start else |s|..]
    else if |s| + start < 0 then s
    else s[|s| + start..]
  }

  /** `get_history(n)` as evidently intended: the last `n` exchanges, none
      for `n <= 0`, all for `None`. */
  function Newest(h: History, n: Option<int>): (r: seq<Interaction>)
    ensures n.None? ==> r == h.entries
    ensures n.Some? ==> |r| == (if n.value <= 0 then 0 else if |h.entries| <= n.value then |h.entries| else n.value)
    ensures r == h.entries[|h.entries| - |r|..]
  {
    match n
    case None => h.entries
    case Some(k) => if k <= 0 then [] else Last(h.entries, k)
  }

  /** Each exchange as a user message and an assistant message. */
  function Messages(xs: seq<Interaction>): (ms: seq<Message>)
    ensures |ms| == 2 * |xs|
    ensures forall i :: 0 <= i < |xs| ==> ms[2 * i] == UserMessage(xs[i].prompt)
    ensures forall i :: 0 <= i < |xs| ==> ms[2 * i + 1] == AssistantMessage(xs[i].response)
  {
    if |xs| == 0 then []
    else
      var rest := Messages(xs[1..]);
      var ms := [UserMessage(xs[0].prompt), AssistantMessage(xs[0].response)] + rest;
      assert forall i :: 1 <= i < |xs| ==> ms[2 * i] == rest[2 * (i - 1)] && xs[i] == xs[1..][i - 1];
      ms
  }

  /** `get_as_messages(n)`: the exchanges `get_history(n)` returns, as chat
      messages. */
  function AsMessages(h: History, n: Option<int>): (ms: seq<Message>)
    ensures |ms| == 2 * |Recent(h, n)|
  {
    Messages(Recent(h, n))
  }

  /** `clear()`: no exchanges, the same bound. */
  function Clear(h: History): (r: History)
    ensures Valid(r) && r.maxLen == h.maxLen && IsEmpty(r)
  {
    History(h.maxLen, [])
  }

  /** `size()`. */
  function Size(h: History): nat {
    |h.entries|
  }

  /** `is_empty()`. */
  predicate IsEmpty(h: History) {
    |h.entries| == 0
  }

  // ---------------------------------------------------------------------
  // Lemmas.

  /** Keeping the newest `n` of a sequence and then of it extended by one
      exchange is keeping the newest `n` of the whole. */
  lemma KeptSnoc(maxLen: Option<nat>, s: seq<Interaction>, e: Interaction)
    ensures Kept(maxLen, Kept(maxLen, s) + [e]) == Kept(maxLen, s + [e])
  {
    if maxLen.Some? {
      var n := maxLen.value;
      var t := Last(s, n) + [e];
      if |s| > n && n > 0 {
        assert (s + [e])[|s| + 1 - n..] == s[|s| - n + 1..] + [e];
        assert t[|t| - n..] == s[|s| - n + 1..] + [e];
      }
    }
  }

  /** The deque after adding each (prompt, response) exchange in order. */
  function AddAll(h: History, exchanges: seq<(string, Response)>): (r: History)
    decreases |exchanges|
  {
    if |exchanges| == 0 then h
    else AddAll(Add(h, exchanges[0].0, exchanges[0].1), exchanges[1..])
  }

  /** The records those exchanges store. */
  function Records(exchanges: seq<(string, Response)>): (r: seq<Interaction>)
    ensures |r| == |exchanges|
    ensures forall i :: 0 <= i < |exchanges| ==> r[i] == Record(exchanges[i].0, exchanges[i].1)
  {
    seq(|exchanges|, i requires 0 <= i < |exchanges| => Record(exchanges[i].0, exchanges[i].1))
  }

  /** The records of a non-empty run of exchanges are its first record and
      the rest's. */
  lemma RecordsCons(exchanges: seq<(string, Response)>)
    requires |exchanges| > 0
    ensures Records(exchanges) == [Record(exchanges[0].0, exchanges[0].1)] + Records(exchanges[1..])
  {
    var r := [Record(exchanges[0].0, exchanges[0].1)] + Records(exchanges[1..]);
    forall i | 0 <= i < |exchanges| ensures r[i] == Records(exchanges)[i] {
      if i > 0 {
        assert exchanges[1..][i - 1] == exchanges[i];
      }
    }
  }

  /** However many exchanges are added, the deque holds exactly the newest
      `maxlen` of everything it was given, in order. */
  lemma {:induction false} AddAllKeepsNewest(h: History, exchanges: seq<(string, Response)>)
    requires h.entries == Kept(h.maxLen, h.entries)
    ensures AddAll(h, exchanges).maxLen == h.maxLen
    ensures AddAll(h, exchanges).entries == Kept(h.maxLen, h.entries + Records(exchanges))
    decreases |exchanges|
  {
    if |exchanges| > 0 {
      var e := Record(exchanges[0].0, exchanges[0].1);
      var h1 := Add(h, exchanges[0].0, exchanges[0].1);
      var rest := Records(exchanges[1..]);
      KeptTwice(h.maxLen, h.entries + [e]);
      AddAllKeepsNewest(h1, exchanges[1..]);
      RecordsCons(exchanges);
      StepKept(h.maxLen, h.entries, e, rest);
    }
  }

  /** Trimming after the first new exchange and again after the rest keeps
      what trimming once after all of them keeps. */
  lemma StepKept(maxLen: Option<nat>, s: seq<Interaction>, e: Interaction, rest: seq<Interaction>)
    ensures Kept(maxLen, Kept(maxLen, s + [e]) + rest) == Kept(maxLen, s + ([e] + rest))
  {
    KeptSnocMany(maxLen, s + [e], rest);
    assert (s + [e]) + rest == s + ([e] + rest);
  }

  /** Keeping the newest exchanges is idempotent. */
  lemma KeptTwice(maxLen: Option<nat>, s: seq<Interaction>)
    ensures Kept(maxLen, Kept(maxLen, s)) == Kept(maxLen, s)
  {
  }

  /** Trimming before appending more exchanges does not change what is kept
      in the end. */
  lemma {:induction false} KeptSnocMany(maxLen: Option<nat>, s: seq<Interaction>, more: seq<Interaction>)
    ensures Kept(maxLen, Kept(maxLen, s) + more) == Kept(maxLen, s + more)
    decreases |more|
  {
    if |more| > 0 {
      var init := more[..|more| - 1];
      var e := more[|more| - 1];
      assert more == init + [e];
      var k := Kept(maxLen, s);
      calc {
        Kept(maxLen, k + more);
        { assert k + more == (k + init) + [e]; }
        Kept(maxLen, (k + init) + [e]);
        { KeptSnoc(maxLen, k + init, e); }
        Kept(maxLen, Kept(maxLen, k + init) + [e]);
        { KeptSnocMany(maxLen, s, init); }
        Kept(maxLen, Kept(maxLen, s + init) + [e]);
        { KeptSnoc(maxLen, s + init, e); }
        Kept(maxLen, (s + init) + [e]);
        { assert (s + init) + [e] == s + more; }
        Kept(maxLen, s + more);
      }
    }
  }

  /** The size grows by one per exchange until the bound is reached. */
  lemma SizeAfterAdd(h: History, prompt: string, response: Response)
    requires Valid(h)
    ensures h.maxLen.None? ==> Size(Add(h, prompt, response)) == Size(h) + 1
    ensures h.maxLen.Some? ==>
              Size(Add(h, prompt, response))
              == if Size(h) < h.maxLen.value then Size(h) + 1 else h.maxLen.value
  {
  }

  /** As written, `get_history(0)` returns the whole history rather than no
      exchange, and `get_history(-1)` drops the oldest one. */
  lemma ZeroRecentIsEverything(h: History)
    ensures Recent(h, Some(0)) == h.entries
    ensures |h.entries| > 0 ==> Recent(h, Some(-1)) == h.entries[1..]
    ensures |h.entries| > 0 ==> |Recent(h, Some(0))| > |Newest(h, Some(0))| == 0
  {
  }

  /** For a positive count and for `None`, the slice as written and the
      intended one agree. */
  lemma RecentAgrees(h: History, n: Option<int>)
    requires n.None? || n.value > 0
    ensures Recent(h, n) == Newest(h, n)
  {
  }

  /** What `get_history(n)` returns, case by case: everything for `None`
      and 0, the newest `n` for a positive `n`. */
  lemma RecentCases(h: History, n: Option<int>)
    ensures n.None? || n == Some(0) ==> Recent(h, n) == h.entries
    ensures n.Some? && n.value > 0 ==> Recent(h, n) == Newest(h, n)
    ensures |Recent(h, n)| <= |h.entries| && Recent(h, n) == h.entries[|h.entries| - |Recent(h, n)|..]
  {
    ZeroRecentIsEverything(h);
    match n
    case None =>
    case Some(k) =>
      if k > 0 {
        RecentAgrees(h, n);
      } else {
        var j := if -k <= |h.entries| then -k else |h.entries|;
        assert Recent(h, n) == h.entries[j..];
        assert |h.entries| - |Recent(h, n)| == j;
      }
  }

  /** The history as messages: user and assistant turns alternate, one pair
      per exchange, oldest first. */
  lemma MessagesAlternate(h: History, n: Option<int>, i: nat)
    requires i < |Recent(h, n)|
    ensures AsMessages(h, n)[2 * i] == UserMessage(Recent(h, n)[i].prompt)
    ensures AsMessages(h, n)[2 * i + 1] == AssistantMessage(Recent(h, n)[i].response)
  {
  }
}
