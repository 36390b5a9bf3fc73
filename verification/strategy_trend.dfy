/** The trend strategy (backend/strategies/fake_strategy_trend.py): a moving-average
    crossover over the last `fast` and the last `slow` closes, with a latch that stops
    the same signal from firing twice in a row. */
module TrendStrategy {
  import opened Payloads
  import opened Orders

  /** `last_signal`: None, "LONG" or "SHORT". */
  datatype Signal = NoSignal | Long | Short

  /** The windows are `deque(maxlen=fast)` and `deque(maxlen=slow)` of the closes as read. */
  datatype Trend = Trend(fast: nat, slow: nat, fastQ: seq<Value>, slowQ: seq<Value>, last: Signal)

  const Name: string := "FakeStrategyTrend"

  /** The constructor's default window sizes. */
  const DefaultFast: nat := 3
  const DefaultSlow: nat := 8

  function NewTrend(fast: nat, slow: nat): Trend
  {
    Trend(fast, slow, [], [], NoSignal)
  }

  /** The last `n` elements of `h` (all of them when there are fewer). */
  function Recent<T>(h: seq<T>, n: nat): (r: seq<T>)
    ensures |r| == if |h| < n then |h| else n
  {
    if |h| <= n then h else h[|h| - n..]
  }

  /** Appending to a deque with `maxlen = n`: the element goes on the right and, once the
      deque holds `n`, the leftmost one falls off. */
  function Push(q: seq<Value>, v: Value, n: nat): (r: seq<Value>)
    ensures |r| <= n
    ensures n > 0 ==> |r| > 0 && r[|r| - 1] == v
    ensures |q| < n ==> r == q + [v]
  {
    Recent(q + [v], n)
  }

  predicate AllNumbers(q: seq<Value>)
  {
    forall i :: 0 <= i < |q| ==> q[i].Num?
  }

  function Total(q: seq<Value>): real
    requires AllNumbers(q)
  {
    if q == [] then 0.0 else Total(q[..|q| - 1]) + q[|q| - 1].n
  }

  /** `_avg`: 0.0 for an empty window, otherwise the mean; `sum` raises on a value that is not
      a number. */
  function Average(q: seq<Value>): (r: Result<real>)
    ensures r.Raised? <==> !AllNumbers(q)
    ensures r.Ok? && q == [] ==> r.value == 0.0
    ensures r.Ok? && q != [] ==> r.value * (|q| as real) == Total(q)
  {
    if !AllNumbers(q) then Raised(TypeError)
    else if q == [] then Ok(0.0)
    else Ok(Total(q) / (|q| as real))
  }

  function SignalOf(side: OrderSide): Signal
  {
    match side
    case Buy => Long
    case Sell => Short
  }

  /** The decision part of `on_candle`: both windows take the close (0.0 when missing); until
      both are full there is no decision; then a fast average above the slow one gives BUY
      unless the latch is already LONG, one below gives SELL unless it is already SHORT, and
      anything else gives nothing. An emitted side sets the latch; nothing else moves it. */
  function Decide(t: Trend, candle: Payload): (r: (Trend, Result<Option<OrderSide>>))
    ensures r.0.fast == t.fast && r.0.slow == t.slow
    ensures r.0.fastQ == Push(t.fastQ, Get(candle, "close", Num(0.0)), t.fast)
    ensures r.0.slowQ == Push(t.slowQ, Get(candle, "close", Num(0.0)), t.slow)
    ensures |r.0.fastQ| < t.fast || |r.0.slowQ| < t.slow ==> r.1 == Ok(None)
    ensures r.1.Raised? <==> |r.0.fastQ| >= t.fast && |r.0.slowQ| >= t.slow && !(AllNumbers(r.0.fastQ) && AllNumbers(r.0.slowQ))
    ensures r.1.Ok? && r.1.value.Some? ==> r.0.last == SignalOf(r.1.value.value) && r.0.last != t.last
    ensures !(r.1.Ok? && r.1.value.Some?) ==> r.0.last == t.last
    ensures r.1.Ok? && r.1.value.Some? ==>
      var f := Average(r.0.fastQ).value; var s := Average(r.0.slowQ).value;
      (r.1.value.value == Buy ==> f > s) && (r.1.value.value == Sell ==> f < s)
    ensures r.1 == Ok(None) && |r.0.fastQ| >= t.fast && |r.0.slowQ| >= t.slow ==>
      var f := Average(r.0.fastQ).value; var s := Average(r.0.slowQ).value;
      (f > s ==> t.last == Long) && (f < s ==> t.last == Short)
  {
    var close := Get(candle, "close", Num(0.0));
    var t1 := t.(fastQ := Push(t.fastQ, close, t.fast), slowQ := Push(t.slowQ, close, t.slow));
    if |t1.fastQ| < t.fast || |t1.slowQ| < t.slow then (t1, Ok(None))
    else
      match (Average(t1.fastQ), Average(t1.slowQ))
      case (Ok(f), Ok(s)) =>
        if f > s && t.last != Long then (t1.(last := Long), Ok(Some(Buy)))
        else if f < s && t.last != Short then (t1.(last := Short), Ok(Some(Sell)))
        else (t1, Ok(None))
      case _ => (t1, Raised(TypeError))
  }

  /** `on_candle`: the decision, turned into a fake market order of the stub size for BTC/USD
      at the close as read. */
  function OnCandle(t: Trend, candle: Payload): (r: (Trend, Result<Option<Payload>>))
    ensures r.0 == Decide(t, candle).0
    ensures r.1.Raised? <==> Decide(t, candle).1.Raised?
    ensures r.1.Ok? ==> (r.1.value.Some? <==> Decide(t, candle).1.value.Some?)
    ensures r.1.Ok? && r.1.value.Some? ==>
      r.1.value.value.Keys == {"symbol", "side", "order_type", "quantity", "price", "fake"} &&
      r.1.value.value["side"] == Str(SideName(Decide(t, candle).1.value.value)) &&
      r.1.value.value["price"] == Get(candle, "close", Num(0.0)) &&
      r.1.value.value["quantity"] == Num(StubQuantity) &&
      r.1.value.value["symbol"] == Str(DefaultSymbol)
  {
    var (t', decision) := Decide(t, candle);
    match decision
    case Raised(e) => (t', Raised(e))
    case Ok(None) => (t', Ok(None))
    case Ok(Some(side)) => (t', Ok(Some(StubOrder(Str(DefaultSymbol), side, Get(candle, "close", Num(0.0))))))
  }

  /** No two neighbours are the same side. */
  predicate Alternating(sides: seq<OrderSide>)
  {
    forall i :: 0 < i < |sides| ==> sides[i - 1] != sides[i]
  }

  /** Feeding candles in turn: the final state and the sides of the orders emitted. Consecutive
      orders always alternate, the first differs from the latch it started from, and the latch
      ends on the side of the last order. */
  function Run(t: Trend, candles: seq<Payload>): (r: (Trend, seq<OrderSide>))
    ensures r.0.fast == t.fast && r.0.slow == t.slow
    ensures Alternating(r.1)
    ensures r.1 == [] ==> r.0.last == t.last
    ensures r.1 != [] ==> r.0.last == SignalOf(r.1[|r.1| - 1]) && SignalOf(r.1[0]) != t.last
    decreases |candles|
  {
    if candles == [] then (t, [])
    else
      var (t1, decision) := Decide(t, candles[0]);
      var emitted := if decision.Ok? && decision.value.Some? then [decision.value.value] else [];
      var (tn, rest) := Run(t1, candles[1..]);
      (tn, emitted + rest)
  }

  /** The closes the windows see, in order. */
  function Closes(candles: seq<Payload>): (r: seq<Value>)
    ensures |r| == |candles|
    ensures forall i :: 0 <= i < |r| ==> r[i] == Get(candles[i], "close", Num(0.0))
  {
    if candles == [] then [] else [Get(candles[0], "close", Num(0.0))] + Closes(candles[1..])
  }

  /** The last `n` of a long enough suffix are the last `n` of the whole. */
  lemma RecentOfSuffix<T>(h: seq<T>, k: nat, n: nat)
    requires k <= |h| && |h| - k >= |Recent(h, n)|
    ensures Recent(h[k..], n) == Recent(h, n)
  {
    var a := Recent(h[k..], n);
    var b := Recent(h, n);
    assert |a| == |b|;
    assert a == h[k..][|h| - k - |a|..];
    assert b == h[|h| - |b|..];
  }

  /** Trimming a window to its last `n` and then extending it keeps the same last `n`. */
  lemma RecentAppend<T>(h: seq<T>, xs: seq<T>, n: nat)
    ensures Recent(Recent(h, n) + xs, n) == Recent(h + xs, n)
  {
    if |h| > n {
      var k := |h| - n;
      assert Recent(h, n) + xs == (h + xs)[k..];
      RecentOfSuffix(h + xs, k, n);
    }
  }

  lemma ClosesStep(history: seq<Value>, candles: seq<Payload>)
    requires candles != []
    ensures history + [Get(candles[0], "close", Num(0.0))] + Closes(candles[1..]) == history + Closes(candles)
  {
    assert Closes(candles) == [Get(candles[0], "close", Num(0.0))] + Closes(candles[1..]);
  }

  /** One step of `Run`: the state after the first candle carries on with the rest. */
  lemma RunUnfolds(t: Trend, candles: seq<Payload>)
    requires candles != []
    ensures Run(t, candles).0 == Run(Decide(t, candles[0]).0, candles[1..]).0
  {
  }

  /** The windows always hold exactly the last `fast`, respectively `slow`, closes seen
      (`history` being the closes before). */
  lemma {:induction false} WindowsAreRecentCloses(t: Trend, history: seq<Value>, candles: seq<Payload>)
    requires t.fastQ == Recent(history, t.fast) && t.slowQ == Recent(history, t.slow)
    ensures Run(t, candles).0.fastQ == Recent(history + Closes(candles), t.fast)
    ensures Run(t, candles).0.slowQ == Recent(history + Closes(candles), t.slow)
    decreases |candles|
  {
    if candles == [] {
      assert history + Closes(candles) == history;
    } else {
      var close := Get(candles[0], "close", Num(0.0));
      var t1 := Decide(t, candles[0]).0;
      RecentAppend(history, [close], t.fast);
      RecentAppend(history, [close], t.slow);
      WindowsAreRecentCloses(t1, history + [close], candles[1..]);
      ClosesStep(history, candles);
      RunUnfolds(t, candles);
    }
  }

  /** No order before the first `max(fast, slow)` candles: the windows are not full yet. */
  lemma {:induction false} SilentWhileFilling(fast: nat, slow: nat, candles: seq<Payload>)
    requires |candles| < fast || |candles| < slow
    ensures Run(NewTrend(fast, slow), candles).1 == []
  {
    SilentFrom(NewTrend(fast, slow), [], candles);
  }

  lemma {:induction false} SilentFrom(t: Trend, history: seq<Value>, candles: seq<Payload>)
    requires t.fastQ == Recent(history, t.fast) && t.slowQ == Recent(history, t.slow)
    requires |history| + |candles| < t.fast || |history| + |candles| < t.slow
    ensures Run(t, candles).1 == []
    decreases |candles|
  {
    if candles != [] {
      var close := Get(candles[0], "close", Num(0.0));
      var t1 := Decide(t, candles[0]).0;
      RecentAppend(history, [close], t.fast);
      RecentAppend(history, [close], t.slow);
      SilentFrom(t1, history + [close], candles[1..]);
    }
  }
}
