/** lib/riak.js: the Sand grain that keeps one store client per bucket and
    routes `get`, `save` and `delete` to the client of the named bucket. */
module Registry {
  import opened Js

  /** A store client built by the foreign library from its configuration. */
  class Handle {
    const config: Value

    constructor (config: Value)
      ensures this.config == config
    {
      this.config := config;
    }
  }

  // ---------------------------------------------------------------------
  // Building a client's configuration

  /** The own properties of the grain's configuration; anything but an object
      contributes none. A key it holds reads as its value, and a key it does
      not hold reads as `undefined`. */
  function OwnProps(config: Value): (r: map<string, Value>)
    ensures !config.Obj? ==> r == map[]
    ensures !Nullish(config) ==> forall k :: k in r ==> Prop(config, k) == r[k]
    ensures !Nullish(config) ==> forall k :: k !in r ==> Prop(config, k) == Undefined
  {
    if config.Obj? then config.props else map[]
  }

  /** `_.merge({bucket: bucket}, config)`, one level deep: every own property
      of `config` is copied over, except that an `undefined` value does not
      overwrite the `bucket` already there. */
  function MergeConfig(bucket: Value, config: Value): (r: Value)
    ensures r.Obj? && r.props.Keys == OwnProps(config).Keys + {"bucket"}
    ensures forall k :: k in r.props && k != "bucket" ==> r.props[k] == OwnProps(config)[k]
  {
    var own := OwnProps(config);
    var b := if "bucket" in own && own["bucket"] != Undefined then own["bucket"] else bucket;
    Obj(own["bucket" := b], "[object Object]")
  }

  /** The grain's own `bucket` setting wins over the bucket asked for,
      unless it is missing or undefined. */
  lemma ConfigBucket(bucket: Value, config: Value)
    ensures var own := OwnProps(config);
            var r := MergeConfig(bucket, config);
            && ("bucket" in own && own["bucket"] != Undefined ==> r.props["bucket"] == own["bucket"])
            && (!("bucket" in own && own["bucket"] != Undefined) ==> r.props["bucket"] == bucket)
  {
  }

  /** Without a configuration of its own, the client is configured with
      just the bucket. */
  lemma BareConfig(bucket: Value, config: Value)
    requires !config.Obj?
    ensures MergeConfig(bucket, config).props == map["bucket" := bucket]
  {
    assert OwnProps(config) == map[];
  }

  // ---------------------------------------------------------------------
  // Splitting a call's arguments

  /** How the client method is invoked. */
  datatype Style =
    | CallbackStyle  // `client[fn].apply(client, args)`: the caller's callback is last
    | PromiseStyle   // `Q.nfapply(client[fn].bind(client), args)`: a promise is returned

  /** The store-client call that a wrapped call turns into. */
  datatype Dispatch = Dispatch(target: Handle, name: string, forwarded: seq<Value>, style: Style)

  /** The style chosen for the forwarded arguments: callback style exactly
      when the last one is a function; an empty list goes through the promise. */
  function StyleOf(forwarded: seq<Value>): (s: Style)
    ensures s == CallbackStyle <==> |forwarded| > 0 && IsFunction(forwarded[|forwarded| - 1])
  {
    if |forwarded| > 0 && IsFunction(forwarded[|forwarded| - 1]) then CallbackStyle else PromiseStyle
  }

  /** A call's `arguments` object, which the wrapper splices in place. */
  class Arguments {
    var items: seq<Value>

    constructor (items: seq<Value>)
      ensures this.items == items
    {
      this.items := items;
    }

    /** `Array.prototype.splice.call(arguments, start)`: removes and returns
        everything from `start` on. */
    method Splice(start: nat) returns (removed: seq<Value>)
      modifies this
      ensures start <= |old(items)| ==> items == old(items)[..start] && removed == old(items)[start..]
      ensures start > |old(items)| ==> items == old(items) && removed == []
      ensures items + removed == old(items)
    {
      if start <= |items| {
        removed := items[start..];
        items := items[..start];
      } else {
        removed := [];
      }
    }
  }

  // ---------------------------------------------------------------------
  // The grain

  /** Inherited properties of every plain object literal: a read of one of
      these on `{}` yields a truthy built-in rather than `undefined`. */
  const ObjectPrototypeKeys: set<string> := {
    "constructor", "hasOwnProperty", "isPrototypeOf", "propertyIsEnumerable",
    "toLocaleString", "toString", "valueOf", "__proto__",
    "__defineGetter__", "__defineSetter__", "__lookupGetter__", "__lookupSetter__"
  }

  /** What `this.clients[key]` yields. */
  datatype Lookup = Cached(client: Handle) | Inherited(name: string) | Absent

  /** The read `this.clients[key]` as written: own entries first, then the
      object prototype's members. */
  function LookupAsWritten(clients: map<string, Handle>, key: string): (r: Lookup)
    ensures r.Absent? <==> key !in clients && key !in ObjectPrototypeKeys
  {
    if key in clients then Cached(clients[key])
    else if key in ObjectPrototypeKeys then Inherited(key)
    else Absent
  }

  /** A bucket named `constructor` on a fresh grain hits `Object` itself:
      `getClient` returns it and builds no client. */
  lemma ConstructorBucketAsWritten(clients: map<string, Handle>)
    requires clients == map[]
    ensures LookupAsWritten(clients, ToText(Str("constructor"))) == Inherited("constructor")
  {
  }

  class Riak {
    /** `this.config`, filled in by the framework. */
    const config: Value
    /** `this.clients`: the clients built so far, by property key. */
    var clients: map<string, Handle>
    /** The property keys `newClient` was called for, in order. */
    ghost var creations: seq<string>

    /** Every cached client was built once, for its own key. */
    ghost predicate Valid()
      reads this
    {
      && (forall k :: k in clients <==> k in creations)
      && (forall i, j :: 0 <= i < j < |creations| ==> creations[i] != creations[j])
    }

    constructor (config: Value)
      ensures Valid()
      ensures this.config == config && clients == map[] && creations == []
    {
      this.config := config;
      clients := map[];
      creations := [];
    }

    /** `newClient(bucket)`. */
    method NewClient(bucket: Value) returns (h: Handle)
      ensures fresh(h) && h.config == MergeConfig(bucket, config)
    {
      h := new Handle(MergeConfig(bucket, config));
    }

    /** `getClient(bucket)`, reading only the cache's own entries: the
        client for the bucket's property key, built on first use. */
    method GetClient(bucket: Value) returns (h: Handle)
      requires Valid()
      modifies this
      ensures Valid()
      ensures var key := ToText(bucket);
              && key in clients && h == clients[key]
              && (key in old(clients) ==>
                    h == old(clients)[key] && clients == old(clients) && creations == old(creations))
              && (key !in old(clients) ==>
                    && fresh(h) && h.config == MergeConfig(bucket, config)
                    && clients == old(clients)[key := h] && creations == old(creations) + [key])
    {
      var key := ToText(bucket);
      if key !in clients {
        h := NewClient(bucket);
        clients := clients[key := h];
        creations := creations + [key];
      }
      h := clients[key];
    }

    /** `getClient(bucket)` as written: a key the object prototype provides
        is found there, so no client is built and the built-in is returned. */
    method GetClientAsWritten(bucket: Value) returns (r: Lookup)
      requires Valid()
      modifies this
      ensures Valid()
      ensures var key := ToText(bucket);
              && (LookupAsWritten(old(clients), key).Absent? ==>
                    && r.Cached? && fresh(r.client) && r.client.config == MergeConfig(bucket, config)
                    && clients == old(clients)[key := r.client] && creations == old(creations) + [key])
              && (!LookupAsWritten(old(clients), key).Absent? ==>
                    r == LookupAsWritten(old(clients), key) && clients == old(clients) && creations == old(creations))
    {
      var key := ToText(bucket);
      r := LookupAsWritten(clients, key);
      if r.Absent? {
        var h := NewClient(bucket);
        clients := clients[key := h];
        creations := creations + [key];
        r := Cached(h);
      }
    }

    /** `wrapCallInPromise.call(this, fn, arguments)`. */
    method WrapCallInPromise(fn: string, args: Arguments) returns (d: Dispatch)
      requires Valid()
      modifies this, args
      ensures Valid()
      ensures var before := old(args.items);
              && d.name == fn
              && d.forwarded == (if |before| > 0 then before[1..] else [])
              && d.style == StyleOf(d.forwarded)
              && ToText(Arg(before, 0)) in clients && d.target == clients[ToText(Arg(before, 0))]
              && args.items == (if |before| > 0 then [before[0]] else [])
      ensures var key := ToText(Arg(old(args.items), 0));
              && (key in old(clients) ==> clients == old(clients) && creations == old(creations))
              && (key !in old(clients) ==>
                    clients == old(clients)[key := d.target] && creations == old(creations) + [key] && fresh(d.target))
    {
      var bucket := Arg(args.items, 0);
      var forwarded := args.Splice(1);
      var client := GetClient(bucket);
      if |forwarded| > 0 && IsFunction(forwarded[|forwarded| - 1]) {
        d := Dispatch(client, fn, forwarded, CallbackStyle);
      } else {
        d := Dispatch(client, fn, forwarded, PromiseStyle);
      }
    }

    /** `get(bucket, key, cb)`: the client's `get`. */
    method Get(args: Arguments) returns (d: Dispatch)
      requires Valid()
      modifies this, args
      ensures Valid()
      ensures var before := old(args.items);
              && d.name == "get"
              && d.forwarded == Rest(before)
              && d.style == StyleOf(d.forwarded)
              && ToText(Arg(before, 0)) in clients && d.target == clients[ToText(Arg(before, 0))]
              && args.items == (if |before| > 0 then [before[0]] else [])
      ensures var key := ToText(Arg(old(args.items), 0));
              && (key in old(clients) ==> clients == old(clients) && creations == old(creations))
              && (key !in old(clients) ==>
                    clients == old(clients)[key := d.target] && creations == old(creations) + [key] && fresh(d.target))
    {
      d := WrapCallInPromise("get", args);
    }

    /** `save(bucket, key, value, headers, cb)`: the client's `put`. */
    method Save(args: Arguments) returns (d: Dispatch)
      requires Valid()
      modifies this, args
      ensures Valid()
      ensures var before := old(args.items);
              && d.name == "put"
              && d.forwarded == Rest(before)
              && d.style == StyleOf(d.forwarded)
              && ToText(Arg(before, 0)) in clients && d.target == clients[ToText(Arg(before, 0))]
              && args.items == (if |before| > 0 then [before[0]] else [])
      ensures var key := ToText(Arg(old(args.items), 0));
              && (key in old(clients) ==> clients == old(clients) && creations == old(creations))
              && (key !in old(clients) ==>
                    clients == old(clients)[key := d.target] && creations == old(creations) + [key] && fresh(d.target))
    {
      d := WrapCallInPromise("put", args);
    }

    /** `delete(bucket, key, cb)`: the client's `del`. */
    method Delete(args: Arguments) returns (d: Dispatch)
      requires Valid()
      modifies this, args
      ensures Valid()
      ensures var before := old(args.items);
              && d.name == "del"
              && d.forwarded == Rest(before)
              && d.style == StyleOf(d.forwarded)
              && ToText(Arg(before, 0)) in clients && d.target == clients[ToText(Arg(before, 0))]
              && args.items == (if |before| > 0 then [before[0]] else [])
      ensures var key := ToText(Arg(old(args.items), 0));
              && (key in old(clients) ==> clients == old(clients) && creations == old(creations))
              && (key !in old(clients) ==>
                    clients == old(clients)[key := d.target] && creations == old(creations) + [key] && fresh(d.target))
    {
      d := WrapCallInPromise("del", args);
    }
  }

  /** The arguments after the bucket. */
  function Rest(args: seq<Value>): (r: seq<Value>)
    ensures |args| > 0 ==> [args[0]] + r == args
    ensures |args| == 0 ==> r == []
  {
    if |args| > 0 then args[1..] else []
  }
}
