/** lib/Client.js: the delegated call wrapper. Each delegated method
    optionally starts a profiler span labelled from its first argument,
    invokes the underlying store client with a node-style callback, and
    turns that callback's `(err, response, data)` into one promise outcome,
    stopping the span and logging failures on the way. */
module Client {
  import opened Js
  import Label

  // ---------------------------------------------------------------------
  // The delegated operations

  /** The methods the constructor delegates to the store client. */
  datatype Op =
    | DeleteIndex | DeleteValue | Execute | FetchBucketProps | FetchBucketTypeProps
    | FetchCounter | FetchIndex | FetchMap | FetchPreflist | FetchSchema | FetchSet
    | FetchValue | ListBuckets | ListKeys | MapReduce | Ping | ResetBucketProps
    | Search | SecondaryIndexQuery | StoreBucketProps | StoreBucketTypeProps
    | StoreIndex | StoreSchema | StoreValue | TsDelete | TsDescribe | TsGet
    | TsListKeys | TsQuery | TsStore | UpdateCounter | UpdateMap | UpdateSet

  /** The method name, as the store client spells it. */
  function Name(op: Op): string {
    match op
    case DeleteIndex => "deleteIndex"
    case DeleteValue => "deleteValue"
    case Execute => "execute"
    case FetchBucketProps => "fetchBucketProps"
    case FetchBucketTypeProps => "fetchBucketTypeProps"
    case FetchCounter => "fetchCounter"
    case FetchIndex => "fetchIndex"
    case FetchMap => "fetchMap"
    case FetchPreflist => "fetchPreflist"
    case FetchSchema => "fetchSchema"
    case FetchSet => "fetchSet"
    case FetchValue => "fetchValue"
    case ListBuckets => "ListBuckets"
    case ListKeys => "listKeys"
    case MapReduce => "mapReduce"
    case Ping => "ping"
    case ResetBucketProps => "resetBucketProps"
    case Search => "search"
    case SecondaryIndexQuery => "secondaryIndexQuery"
    case StoreBucketProps => "storeBucketProps"
    case StoreBucketTypeProps => "storeBucketTypeProps"
    case StoreIndex => "storeIndex"
    case StoreSchema => "storeSchema"
    case StoreValue => "storeValue"
    case TsDelete => "tsDelete"
    case TsDescribe => "tsDescribe"
    case TsGet => "tsGet"
    case TsListKeys => "tsListKeys"
    case TsQuery => "tsQuery"
    case TsStore => "tsStore"
    case UpdateCounter => "updateCounter"
    case UpdateMap => "updateMap"
    case UpdateSet => "updateSet"
  }

  /** Every label of a delegated call begins with `riak ` and the method name. */
  lemma LabelNamesOperation(op: Op, f: Label.LabelFields)
    ensures var l := Label.BuildLabel(Name(op), f);
            |l| >= 5 + |Name(op)| && l[..5 + |Name(op)|] == "riak " + Name(op)
  {
    var n := Name(op);
    NameEndsVisibly(op);
    Label.NotSpace(n[|n| - 1]);
    Label.LabelShape(n, f);
  }

  /** Every method name is nonempty and ends in a printable ASCII
      character other than the space. The 33 names are checked in six
      groups, one lemma each, so that no single case split over all of
      them has to be solved at once. */
  lemma NameEndsVisibly(op: Op)
    ensures var n := Name(op); |n| > 0 && ' ' < n[|n| - 1] <= '~'
  {
    if op.DeleteIndex? || op.DeleteValue? || op.Execute? {
      DeleteNamesEndVisibly(op);
    } else if op.FetchBucketProps? || op.FetchBucketTypeProps? || op.FetchCounter? || op.FetchIndex?
           || op.FetchMap? || op.FetchPreflist? || op.FetchSchema? || op.FetchSet? || op.FetchValue? {
      FetchNamesEndVisibly(op);
    } else if op.ListBuckets? || op.ListKeys? || op.MapReduce? || op.Ping? || op.ResetBucketProps?
           || op.Search? || op.SecondaryIndexQuery? {
      QueryNamesEndVisibly(op);
    } else if op.StoreBucketProps? || op.StoreBucketTypeProps? || op.StoreIndex? || op.StoreSchema?
           || op.StoreValue? {
      StoreNamesEndVisibly(op);
    } else if op.TsDelete? || op.TsDescribe? || op.TsGet? || op.TsListKeys? || op.TsQuery?
           || op.TsStore? {
      TsNamesEndVisibly(op);
    } else {
      UpdateNamesEndVisibly(op);
    }
  }

  /** The same, for the deletes and `execute`. */
  lemma DeleteNamesEndVisibly(op: Op)
    requires op.DeleteIndex? || op.DeleteValue? || op.Execute?
    ensures var n := Name(op); |n| > 0 && ' ' < n[|n| - 1] <= '~'
  {
  }

  /** The same, for the fetches. */
  lemma FetchNamesEndVisibly(op: Op)
    requires op.FetchBucketProps? || op.FetchBucketTypeProps? || op.FetchCounter? || op.FetchIndex?
             || op.FetchMap? || op.FetchPreflist? || op.FetchSchema? || op.FetchSet? || op.FetchValue?
    ensures var n := Name(op); |n| > 0 && ' ' < n[|n| - 1] <= '~'
  {
  }

  /** The same, for the listings, queries and `ping`. */
  lemma QueryNamesEndVisibly(op: Op)
    requires op.ListBuckets? || op.ListKeys? || op.MapReduce? || op.Ping? || op.ResetBucketProps?
             || op.Search? || op.SecondaryIndexQuery?
    ensures var n := Name(op); |n| > 0 && ' ' < n[|n| - 1] <= '~'
  {
  }

  /** The same, for the stores. */
  lemma StoreNamesEndVisibly(op: Op)
    requires op.StoreBucketProps? || op.StoreBucketTypeProps? || op.StoreIndex? || op.StoreSchema?
             || op.StoreValue?
    ensures var n := Name(op); |n| > 0 && ' ' < n[|n| - 1] <= '~'
  {
  }

  /** The same, for the time-series operations. */
  lemma TsNamesEndVisibly(op: Op)
    requires op.TsDelete? || op.TsDescribe? || op.TsGet? || op.TsListKeys? || op.TsQuery?
             || op.TsStore?
    ensures var n := Name(op); |n| > 0 && ' ' < n[|n| - 1] <= '~'
  {
  }

  /** The same, for the updates. */
  lemma UpdateNamesEndVisibly(op: Op)
    requires op.UpdateCounter? || op.UpdateMap? || op.UpdateSet?
    ensures var n := Name(op); |n| > 0 && ' ' < n[|n| - 1] <= '~'
  {
  }

  // ---------------------------------------------------------------------
  // What a call does, as a trace of its observable effects

  /** The error `returnResult` rejects with: `new Error(err)` with the
      callback's data and a request descriptor attached. */
  datatype RiakError = RiakError(message: string, data: Value, req: string)

  /** One call of the failure logger `sand.riak.error(message, ...args)`. */
  datatype LogEntry = LogEntry(message: string, args: seq<Value>)

  datatype Event =
    | SpanStarted(name: string)             // sand.profiler.profile(label)
    | Invoked(fn: string, args: seq<Value>)  // client.client[fn](...args, returnResult)
    | SpanStopped                            // p.stop()
    | Logged(entry: LogEntry)                // sand.riak.error(...)
    | Resolved(value: Value)                 // resolve(response)
    | Rejected(error: RiakError)             // reject(err)

  predicate IsSettle(e: Event) {
    e.Resolved? || e.Rejected?
  }

  datatype Kind = Start | Invoke | Stop | Log | Settle

  function KindOf(e: Event): Kind {
    match e
    case SpanStarted(_) => Start
    case Invoked(_, _) => Invoke
    case SpanStopped => Stop
    case Logged(_) => Log
    case Resolved(_) => Settle
    case Rejected(_) => Settle
  }

  /** How many events of kind `k` the trace holds. */
  function Count(t: seq<Event>, k: Kind): nat {
    if |t| == 0 then 0 else (if KindOf(t[0]) == k then 1 else 0) + Count(t[1..], k)
  }

  lemma {:induction false} CountConcat(a: seq<Event>, b: seq<Event>, k: Kind)
    ensures Count(a + b, k) == Count(a, k) + Count(b, k)
  {
    if |a| == 0 {
      assert a + b == b;
    } else {
      assert (a + b)[0] == a[0];
      assert (a + b)[1..] == a[1..] + b;
      CountConcat(a[1..], b, k);
    }
  }

  lemma CountOne(e: Event, k: Kind)
    ensures Count([e], k) == if KindOf(e) == k then 1 else 0
  {
    assert [e][1..] == [];
  }

  /** The promise's outcome: the first resolve or reject wins, and every
      later one is ignored. */
  function Settlement(t: seq<Event>): (r: Option<Event>)
    ensures r.Some? ==> IsSettle(r.value) && r.value in t
    ensures r.None? <==> Count(t, Settle) == 0
  {
    if |t| == 0 then None
    else if IsSettle(t[0]) then Some(t[0])
    else Settlement(t[1..])
  }

  /** A promise settles at most once: once settled, nothing appended to the
      trace changes how. */
  lemma {:induction false} SettledStaysSettled(t: seq<Event>, more: seq<Event>)
    requires Settlement(t).Some?
    ensures Settlement(t + more) == Settlement(t)
  {
    assert (t + more)[0] == t[0];
    if !IsSettle(t[0]) {
      assert (t + more)[1..] == t[1..] + more;
      SettledStaysSettled(t[1..], more);
    }
  }

  /** Nothing settles in a prefix without a resolve or reject. */
  lemma {:induction false} SettlementAfterUnsettled(t: seq<Event>, more: seq<Event>)
    requires Settlement(t).None?
    ensures Settlement(t + more) == Settlement(more)
  {
    if |t| == 0 {
      assert t + more == more;
    } else {
      assert (t + more)[0] == t[0];
      assert (t + more)[1..] == t[1..] + more;
      SettlementAfterUnsettled(t[1..], more);
    }
  }

  /** The request descriptor `${fn}: ${args[0]}`: the function name, a
      colon and a space, then the text of the first argument. */
  function RequestDescriptor(fn: string, args: seq<Value>): (r: string)
    ensures |r| == |fn| + 2 + |ToText(Arg(args, 0))|
    ensures r[..|fn|] == fn && r[|fn|] == ':' && r[|fn| + 1] == ' '
    ensures r[|fn| + 2..] == ToText(Arg(args, 0))
  {
    fn + ": " + ToText(Arg(args, 0))
  }

  /** The effects of one run of `returnResult(err, response, data)`: the
      span is stopped first when there is one; a truthy error is logged and
      then rejects with the wrapped error, anything else resolves with the
      response. */
  function ReturnResultEffects(fn: string, args: seq<Value>, spanned: bool,
                               err: Value, response: Value, data: Value): (r: seq<Event>)
    ensures |r| == (if spanned then 1 else 0) + (if Truthy(err) then 2 else 1)
    ensures spanned ==> r[0] == SpanStopped
    ensures Truthy(err) ==>
              && r[|r| - 2] == Logged(LogEntry(ToText(err) + " " + fn + ":", args))
              && r[|r| - 1] == Rejected(RiakError(ToText(err), data, RequestDescriptor(fn, args)))
    ensures !Truthy(err) ==> r[|r| - 1] == Resolved(response)
  {
    var stop := if spanned then [SpanStopped] else [];
    if Truthy(err) then
      var e := RiakError(ToText(err), data, RequestDescriptor(fn, args));
      stop + [Logged(LogEntry(e.message + " " + fn + ":", args)), Rejected(e)]
    else
      stop + [Resolved(response)]
  }

  /** How many effects of each kind one run of `returnResult` has. */
  lemma {:induction false} EffectCounts(fn: string, args: seq<Value>, spanned: bool,
                     err: Value, response: Value, data: Value, k: Kind)
    ensures Count(ReturnResultEffects(fn, args, spanned, err, response, data), k)
            == (if spanned && k == Stop then 1 else 0) + (if Truthy(err) && k == Log then 1 else 0)
               + (if k == Settle then 1 else 0)
  {
    CountsOfEffects(ReturnResultEffects(fn, args, spanned, err, response, data), spanned, Truthy(err), k);
  }

  /** The counts of any effect list shaped like one run of `returnResult`:
      an optional stop, then a log and a reject, or a resolve alone. */
  lemma {:induction false} CountsOfEffects(es: seq<Event>, spanned: bool, failed: bool, k: Kind)
    requires |es| == (if spanned then 1 else 0) + (if failed then 2 else 1)
    requires spanned ==> es[0] == SpanStopped
    requires failed ==> es[|es| - 2].Logged? && es[|es| - 1].Rejected?
    requires !failed ==> es[|es| - 1].Resolved?
    ensures Count(es, k) == (if spanned && k == Stop then 1 else 0) + (if failed && k == Log then 1 else 0)
                            + (if k == Settle then 1 else 0)
  {
    var n := if spanned then 1 else 0;
    var stop := es[..n];
    var tail := es[n..];
    assert es == stop + tail;
    CountConcat(stop, tail, k);
    if spanned {
      assert stop == [SpanStopped];
      CountOne(SpanStopped, k);
    } else {
      assert stop == [];
    }
    if failed {
      assert tail == [tail[0]] + [tail[1]];
      CountConcat([tail[0]], [tail[1]], k);
      CountOne(tail[0], k);
      CountOne(tail[1], k);
    } else {
      assert tail == [tail[0]];
      CountOne(tail[0], k);
    }
  }


  /** One run of `returnResult` resolves or rejects exactly once, as its
      last effect, and stops the span (when there is one) exactly once and
      first. */
  lemma {:induction false} ReturnResultSettlesOnce(fn: string, args: seq<Value>, spanned: bool,
                                err: Value, response: Value, data: Value)
    ensures var es := ReturnResultEffects(fn, args, spanned, err, response, data);
            && Count(es, Settle) == 1 && IsSettle(es[|es| - 1])
            && Count(es, Stop) == (if spanned then 1 else 0)
            && (spanned ==> es[0] == SpanStopped)
            && Count(es, Start) == 0 && Count(es, Invoke) == 0
  {
    EffectCounts(fn, args, spanned, err, response, data, Settle);
    EffectCounts(fn, args, spanned, err, response, data, Stop);
    EffectCounts(fn, args, spanned, err, response, data, Start);
    EffectCounts(fn, args, spanned, err, response, data, Invoke);
  }

  /** The first settle of the effects of `returnResult` is their last one. */
  lemma {:induction false} EffectsSettlement(fn: string, args: seq<Value>, spanned: bool,
                          err: Value, response: Value, data: Value)
    ensures var es := ReturnResultEffects(fn, args, spanned, err, response, data);
            Settlement(es) == Some(es[|es| - 1])
  {
    var es := ReturnResultEffects(fn, args, spanned, err, response, data);
    var stop: seq<Event> := if spanned then [SpanStopped] else [];
    var tail := es[|stop|..];
    assert es == stop + tail;
    if spanned {
      assert [SpanStopped][1..] == [];
    }
    SettlementAfterUnsettled(stop, tail);
    if Truthy(err) {
      assert tail[1..][1..] == [];
    } else {
      assert tail[1..] == [];
    }
  }

  /** A truthy `err` rejects, never resolves, and logs once just before the
      rejection; the error carries the message of `err`, the callback's
      data and the request descriptor. */
  lemma {:induction false} ErrorRejects(fn: string, args: seq<Value>, spanned: bool,
                     err: Value, response: Value, data: Value)
    requires Truthy(err)
    ensures var es := ReturnResultEffects(fn, args, spanned, err, response, data);
            var e := RiakError(ToText(err), data, fn + ": " + ToText(Arg(args, 0)));
            && Settlement(es) == Some(Rejected(e))
            && Count(es, Log) == 1
            && es[|es| - 2] == Logged(LogEntry(ToText(err) + " " + fn + ":", args))
            && forall i :: 0 <= i < |es| ==> !es[i].Resolved?
  {
    EffectCounts(fn, args, spanned, err, response, data, Log);
    EffectsSettlement(fn, args, spanned, err, response, data);
  }

  /** A falsy `err` resolves with `response` and logs nothing. */
  lemma {:induction false} SuccessResolves(fn: string, args: seq<Value>, spanned: bool,
                        err: Value, response: Value, data: Value)
    requires !Truthy(err)
    ensures var es := ReturnResultEffects(fn, args, spanned, err, response, data);
            && Settlement(es) == Some(Resolved(response))
            && Count(es, Log) == 0
            && forall i :: 0 <= i < |es| ==> !es[i].Rejected?
  {
    EffectCounts(fn, args, spanned, err, response, data, Log);
    EffectsSettlement(fn, args, spanned, err, response, data);
  }

  /** The promise ignores a second callback, but the span is stopped again
      and a failure is logged again: the span is stopped exactly once only
      as long as the store client calls back exactly once. */
  lemma {:induction false} SecondCallbackDoesNotResettle(t: seq<Event>, fn: string, args: seq<Value>, spanned: bool,
                                      err: Value, response: Value, data: Value)
    requires Settlement(t).Some?
    ensures var t' := t + ReturnResultEffects(fn, args, spanned, err, response, data);
            && Settlement(t') == Settlement(t)
            && Count(t', Stop) == Count(t, Stop) + (if spanned then 1 else 0)
  {
    var es := ReturnResultEffects(fn, args, spanned, err, response, data);
    SettledStaysSettled(t, es);
    CountConcat(t, es, Stop);
    ReturnResultSettlesOnce(fn, args, spanned, err, response, data);
  }

  // ---------------------------------------------------------------------
  // One delegated call

  /** What the store client does with the call `client.client[fn](...args, cb)`. */
  datatype Invocation =
    | CallsBack(err: Value, response: Value, data: Value)  // runs cb(err, response, data) once
    | Throws(exception: Value)                             // throws before calling back
    | NeverCallsBack                                       // cb has not run (yet)

  /** Why the returned promise's `.catch(sand.error)` handler ran. */
  datatype Reason = Wrapped(error: RiakError) | Thrown(exception: Value)

  /** What the delegated method hands back to its caller. The handler's own
      return value is that of `sand.error` and is not modelled. */
  datatype Returned =
    | Threw(fault: Label.Fault)  // building the label threw, before any promise existed
    | Pending                    // the promise has not settled
    | Fulfilled(value: Value)    // the promise resolved with the response
    | Handled(reason: Reason)    // the promise rejected and `sand.error` got the reason

  /** The trace of a call that got past building its label: the span start
      when there is a label, the one invocation of the store client, and the
      effects of `returnResult` only when the store client calls back. */
  function CallTrace(fn: string, args: seq<Value>, tag: Option<string>, inv: Invocation): (r: seq<Event>)
    ensures var k := if tag.Some? then 1 else 0;
            && |r| > k && r[k] == Invoked(fn, args)
            && (tag.Some? ==> r[0] == SpanStarted(tag.value))
            && (inv.CallsBack? ==> r[k + 1..] == ReturnResultEffects(fn, args, tag.Some?, inv.err, inv.response, inv.data))
            && (!inv.CallsBack? ==> |r| == k + 1)
  {
    var start := if tag.Some? then [SpanStarted(tag.value)] else [];
    var called := start + [Invoked(fn, args)];
    match inv
    case CallsBack(err, response, data) => called + ReturnResultEffects(fn, args, tag.Some?, err, response, data)
    case _ => called
  }

  /** What the caller gets, given the trace and the store client's behaviour:
      a started call never throws to its caller; a throwing store client
      rejects the promise with what it threw; otherwise the first settle
      event decides, and the promise stays pending without one. */
  function CallReturn(t: seq<Event>, inv: Invocation): (r: Returned)
    ensures !r.Threw?
    ensures inv.Throws? ==> r == Handled(Thrown(inv.exception))
    ensures !inv.Throws? ==> (r.Pending? <==> Settlement(t).None?)
    ensures !inv.Throws? && r.Fulfilled? ==> Settlement(t) == Some(Resolved(r.value))
    ensures !inv.Throws? && r.Handled? ==> r.reason.Wrapped? && Settlement(t) == Some(Rejected(r.reason.error))
  {
    if inv.Throws? then Handled(Thrown(inv.exception))
    else match Settlement(t)
      case Some(Resolved(v)) => Fulfilled(v)
      case Some(Rejected(e)) => Handled(Wrapped(e))
      case _ => Pending
  }

  /** The span is started at most once, and exactly when there is a label;
      the store client is invoked exactly once; when it calls back, the
      span is stopped as often as it was started, before the call settles.
      When it throws instead, the span is never stopped and nothing is
      logged. */
  lemma {:induction false} SpanBalanced(fn: string, args: seq<Value>, tag: Option<string>, inv: Invocation)
    ensures var t := CallTrace(fn, args, tag, inv);
            && Count(t, Start) == (if tag.Some? then 1 else 0)
            && Count(t, Invoke) == 1
            && (inv.CallsBack? ==> Count(t, Stop) == Count(t, Start) && Count(t, Settle) == 1 && IsSettle(t[|t| - 1]))
            && (!inv.CallsBack? ==> Count(t, Stop) == 0 && Count(t, Log) == 0 && Count(t, Settle) == 0)
  {
    var start: seq<Event> := if tag.Some? then [SpanStarted(tag.value)] else [];
    var called := start + [Invoked(fn, args)];
    forall k: Kind ensures Count(called, k) == (if tag.Some? && k == Start then 1 else 0) + (if k == Invoke then 1 else 0) {
      CountConcat(start, [Invoked(fn, args)], k);
      CountOne(Invoked(fn, args), k);
      if tag.Some? {
        CountOne(SpanStarted(tag.value), k);
      }
    }
    if inv.CallsBack? {
      var es := ReturnResultEffects(fn, args, tag.Some?, inv.err, inv.response, inv.data);
      assert CallTrace(fn, args, tag, inv) == called + es;
      ReturnResultSettlesOnce(fn, args, tag.Some?, inv.err, inv.response, inv.data);
      forall k: Kind ensures Count(called + es, k) == Count(called, k) + Count(es, k) {
        CountConcat(called, es, k);
      }
    }
  }

  /** A call whose store client calls back with a falsy error resolves with
      the response, and one with a truthy error hands the wrapped error to
      the rejection handler. */
  lemma {:induction false} CallOutcome(fn: string, args: seq<Value>, tag: Option<string>, err: Value, response: Value, data: Value)
    ensures var r := CallReturn(CallTrace(fn, args, tag, CallsBack(err, response, data)), CallsBack(err, response, data));
            && (!Truthy(err) ==> r == Fulfilled(response))
            && (Truthy(err) ==> r == Handled(Wrapped(RiakError(ToText(err), data, RequestDescriptor(fn, args)))))
  {
    var start: seq<Event> := if tag.Some? then [SpanStarted(tag.value)] else [];
    var called := start + [Invoked(fn, args)];
    var es := ReturnResultEffects(fn, args, tag.Some?, err, response, data);
    assert Settlement(start).None?;
    SettlementAfterUnsettled(start, [Invoked(fn, args)]);
    SettlementAfterUnsettled(called, es);
    if Truthy(err) {
      ErrorRejects(fn, args, tag.Some?, err, response, data);
    } else {
      SuccessResolves(fn, args, tag.Some?, err, response, data);
    }
  }

  /** A value fetch for `{bucket: "users", key: "42"}` whose store client
      calls back with `(null, {data: "x"})` fulfils with `{data: "x"}`. */
  lemma {:induction false} FetchValueSucceeds(args: seq<Value>, response: Value, tag: Option<string>)
    requires args == [Obj(map["bucket" := Str("users"), "key" := Str("42")], "[object Object]")]
    requires response == Obj(map["data" := Str("x")], "[object Object]")
    ensures var inv := CallsBack(Null, response, Undefined);
            CallReturn(CallTrace(Name(FetchValue), args, tag, inv), inv) == Fulfilled(response)
  {
    CallOutcome(Name(FetchValue), args, tag, Null, response, Undefined);
  }

  /** The same fetch called back with `("not found", null, {reason: "missing"})`
      is handed to the rejection handler as an error with message
      `not found`, that data, and a descriptor naming `fetchValue` and the
      string form of its first argument. */
  lemma {:induction false} FetchValueNotFound(args: seq<Value>, data: Value, tag: Option<string>)
    requires args == [Obj(map["bucket" := Str("users"), "key" := Str("42")], "[object Object]")]
    requires data == Obj(map["reason" := Str("missing")], "[object Object]")
    ensures var inv := CallsBack(Str("not found"), Null, data);
            CallReturn(CallTrace(Name(FetchValue), args, tag, inv), inv)
              == Handled(Wrapped(RiakError("not found", data, "fetchValue: [object Object]")))
  {
    CallOutcome(Name(FetchValue), args, tag, Str("not found"), Null, data);
    NotFoundDescriptor(args);
  }

  /** The error text and descriptor of the not-found fetch. */
  lemma NotFoundDescriptor(args: seq<Value>)
    requires |args| > 0 && args[0].Obj? && args[0].text == "[object Object]"
    ensures Truthy(Str("not found")) && ToText(Str("not found")) == "not found"
    ensures RequestDescriptor(Name(FetchValue), args) == "fetchValue: [object Object]"
  {
    assert Name(FetchValue) == "fetchValue";
    assert ToText(Arg(args, 0)) == "[object Object]";
  }

  // ---------------------------------------------------------------------
  // The objects

  /** The record of one delegated call: the function name, the arguments,
      whether a span `p` was started, and the effects so far. */
  class Call {
    const fn: string
    const args: seq<Value>
    const spanned: bool
    var trace: seq<Event>

    /** Starts the span when there is a label and invokes the store client. */
    constructor (fn: string, args: seq<Value>, tag: Option<string>)
      ensures this.fn == fn && this.args == args && spanned == tag.Some?
      ensures trace == (if tag.Some? then [SpanStarted(tag.value)] else []) + [Invoked(fn, args)]
    {
      this.fn := fn;
      this.args := args;
      this.spanned := tag.Some?;
      var start := if tag.Some? then [SpanStarted(tag.value)] else [];
      this.trace := start + [Invoked(fn, args)];
    }

    /** The promise's outcome so far. */
    function Outcome(): Option<Event>
      reads this
    {
      Settlement(trace)
    }

    /** `returnResult(err, response, data)`. A second run cannot change the
        outcome (`SecondCallbackDoesNotResettle`). */
    method ReturnResult(err: Value, response: Value, data: Value)
      modifies this
      ensures trace == old(trace) + ReturnResultEffects(fn, args, spanned, err, response, data)
      ensures old(Outcome()).Some? ==> Outcome() == old(Outcome())
    {
      var effects := ReturnResultEffects(fn, args, spanned, err, response, data);
      if old(Outcome()).Some? {
        SettledStaysSettled(trace, effects);
      }
      trace := trace + effects;
    }
  }

  /** The Sand wrapper around one store client. */
  class Client {
    /** `this._isConnected`: never assigned by the constructor. */
    var isConnected: Value
    /** How many times `this.client.stop()` ran. */
    var clusterStops: nat

    /** The cluster and store client are built by the foreign library; all
        that this model keeps of construction is that `_isConnected` is
        left undefined. */
    constructor ()
      ensures Valid()
      ensures isConnected == Undefined && clusterStops == 0
    {
      isConnected := Undefined;
      clusterStops := 0;
    }

    /** `_isConnected` is only ever undefined or false. */
    ghost predicate Valid()
      reads this
    {
      isConnected == Undefined || isConnected == Bool(false)
    }

    /** `stop()`: marks the client disconnected and stops the store client. */
    method Stop()
      modifies this
      ensures Valid()
      ensures isConnected == Bool(false) && clusterStops == old(clusterStops) + 1
    {
      isConnected := Bool(false);
      clusterStops := clusterStops + 1;
    }

    /** `checkIsConnected()`: throws exactly when `_isConnected` is falsy. */
    method CheckIsConnected() returns (r: Outcome)
      ensures r.Fail? <==> !Truthy(isConnected)
      ensures r.Fail? ==> r.message == "Could not connect to riak server"
    {
      r := ConnectedCheck(isConnected);
    }

    /** The delegated method `client[fn](...args)`: builds the label when the
        profiler is enabled, then starts the call. */
    method Delegate(op: Op, args: seq<Value>, profilerEnabled: bool, inv: Invocation)
      returns (r: Returned, call: Call?)
      ensures profilerEnabled && Label.ProfileLabel(Name(op), args).Err? ==>
                r == Threw(Label.ProfileLabel(Name(op), args).error) && call == null
      ensures !(profilerEnabled && Label.ProfileLabel(Name(op), args).Err?) ==>
                var tag := if profilerEnabled then Some(Label.ProfileLabel(Name(op), args).value) else None;
                && call != null && fresh(call)
                && call.trace == CallTrace(Name(op), args, tag, inv)
                && r == CallReturn(call.trace, inv)
    {
      var fn := Name(op);
      var tag: Option<string> := None;
      if profilerEnabled {
        var l := Label.ProfileLabel(fn, args);
        if l.Err? {
          return Threw(l.error), null;
        }
        tag := Some(l.value);
      }
      call := new Call(fn, args, tag);
      match inv {
        case Throws(x) =>
          r := Handled(Thrown(x));
        case NeverCallsBack =>
          r := Pending;
        case CallsBack(err, response, data) =>
          call.ReturnResult(err, response, data);
          r := CallReturn(call.trace, inv);
      }
    }
  }

  /** The outcome of a check that may throw an Error with a message. */
  datatype Outcome = Pass | Fail(message: string)

  /** The test `checkIsConnected` performs on `_isConnected`. */
  function ConnectedCheck(isConnected: Value): (r: Outcome)
    ensures r.Fail? <==> !Truthy(isConnected)
  {
    if !Truthy(isConnected) then Fail("Could not connect to riak server") else Pass
  }

  /** The check can never pass: `_isConnected` is only ever undefined or
      false, so a caller gated on it would always be refused. */
  lemma CheckNeverPasses(c: Client)
    requires c.Valid()
    ensures ConnectedCheck(c.isConnected).Fail?
  {
  }
}
