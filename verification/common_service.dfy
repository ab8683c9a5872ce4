/**
 * The generic API client service: the key renaming it applies to request
 * bodies (to snake case) and response bodies (to camel case), and how a
 * `list` call turns its arguments into query parameters and chooses between
 * a GET and a POST carrying `_method=GET`.
 */
module CommonService {
  import opened Common
  import opened Assoc
  import opened Seqs

  /** A JSON value; objects keep their key order, as JavaScript objects do. */
  datatype Json =
    | Undefined
    | Null
    | Bool(b: bool)
    | Number(n: int)
    | Str(s: string)
    | Arr(elems: seq<Json>)
    | Obj(fields: Entries<Json>)

  /**
   * `mapKeys(mapFn)(value)`: on a plain object every key is renamed with
   * `mapFn` and only the value under the key `items` is transformed in turn;
   * an array is transformed element by element; any other value is returned
   * as it is.
   */
  function MapKeys(mapFn: string -> string, value: Json): (r: Json)
    ensures value.Obj? <==> r.Obj?
    ensures value.Arr? <==> r.Arr?
    ensures value.Arr? ==> |r.elems| == |value.elems|
    ensures !value.Obj? && !value.Arr? ==> r == value
    decreases value, 1
  {
    match value
    case Obj(fields) => Obj(PutAll([], RenamedPairs(mapFn, fields)))
    case Arr(elems) => Arr(seq(|elems|, i requires 0 <= i < |elems| => MapKeys(mapFn, elems[i])))
    case _ => value
  }

  /** The pairs `[mapFn(key), value']` that the reduce in `mapKeys` assigns in key order. */
  function RenamedPairs(mapFn: string -> string, fields: Entries<Json>): (pairs: Entries<Json>)
    ensures |pairs| == |fields|
    decreases Obj(fields), 0
  {
    seq(|fields|, i requires 0 <= i < |fields| =>
      (mapFn(fields[i].0), if fields[i].0 == "items" then MapKeys(mapFn, fields[i].1) else fields[i].1))
  }

  lemma MapKeysObject(mapFn: string -> string, fields: Entries<Json>)
    ensures MapKeys(mapFn, Obj(fields)) == Obj(PutAll([], RenamedPairs(mapFn, fields)))
  {
  }

  /** An array keeps its length and order; each element is transformed. */
  lemma MapKeysArray(mapFn: string -> string, elems: seq<Json>, i: nat)
    requires i < |elems|
    ensures MapKeys(mapFn, Arr(elems)).elems[i] == MapKeys(mapFn, elems[i])
  {
  }

  /** The keys of a renamed object are exactly the renamed keys, each once. */
  lemma MapKeysObjectKeys(mapFn: string -> string, fields: Entries<Json>, nk: string)
    ensures var r := MapKeys(mapFn, Obj(fields)).fields;
      && UniqueKeys(r)
      && (nk in Keys(r) <==> exists i :: 0 <= i < |fields| && mapFn(fields[i].0) == nk)
  {
    var pairs := RenamedPairs(mapFn, fields);
    MapKeysObject(mapFn, fields);
    PutAllKeys([], pairs, nk);
    PutAllUnique([], pairs);
    assert nk in Keys(pairs) <==> exists i :: 0 <= i < |fields| && mapFn(fields[i].0) == nk by {
      if nk in Keys(pairs) {
        var i :| 0 <= i < |pairs| && Keys(pairs)[i] == nk;
        assert mapFn(fields[i].0) == nk;
      }
      if exists i :: 0 <= i < |fields| && mapFn(fields[i].0) == nk {
        var i :| 0 <= i < |fields| && mapFn(fields[i].0) == nk;
        assert Keys(pairs)[i] == nk;
      }
    }
  }

  /**
   * The value under a renamed key comes from the last original key renamed to
   * it: transformed when that key is `items`, copied unchanged otherwise.
   */
  lemma MapKeysObjectValue(mapFn: string -> string, fields: Entries<Json>, i: nat)
    requires i < |fields|
    requires forall j :: i < j < |fields| ==> mapFn(fields[j].0) != mapFn(fields[i].0)
    ensures Get(MapKeys(mapFn, Obj(fields)).fields, mapFn(fields[i].0))
         == Some(if fields[i].0 == "items" then MapKeys(mapFn, fields[i].1) else fields[i].1)
  {
    var pairs := RenamedPairs(mapFn, fields);
    MapKeysObject(mapFn, fields);
    assert Keys(pairs)[i] == mapFn(fields[i].0);
    LastGetAt(pairs, i);
    PutAllGet([], pairs, mapFn(fields[i].0));
  }

  /** Objects have unique keys at every depth. */
  ghost predicate WellFormed(v: Json)
  {
    match v
    case Obj(fs) => UniqueKeys(fs) && forall i :: 0 <= i < |fs| ==> WellFormed(fs[i].1)
    case Arr(xs) => forall i :: 0 <= i < |xs| ==> WellFormed(xs[i])
    case _ => true
  }

  /** Assigning pairs with distinct keys into an empty object gives the pairs themselves. */
  lemma {:induction false} PutAllFresh(pairs: Entries<Json>)
    requires UniqueKeys(pairs)
    ensures PutAll([], pairs) == pairs
    decreases |pairs|
  {
    if pairs != [] {
      var init := pairs[..|pairs| - 1];
      var last := pairs[|pairs| - 1];
      PutAllFresh(init);
      assert last.0 !in Keys(init) by {
        forall j | 0 <= j < |init| ensures Keys(init)[j] != last.0 {
          assert init[j] == pairs[j];
        }
      }
      PutAt(init, last.0, last.1);
      assert init + [last] == pairs;
    }
  }

  lemma {:induction false} PutAt(m: Entries<Json>, k: string, v: Json)
    requires k !in Keys(m)
    ensures Put(m, k, v) == m + [(k, v)]
    decreases |m|
  {
    if m != [] {
      assert Keys(m) == [m[0].0] + Keys(m[1..]);
      PutAt(m[1..], k, v);
      assert [m[0]] + (m[1..] + [(k, v)]) == m + [(k, v)];
    }
  }

  /**
   * Renaming is undone by the inverse renaming, as between the snake-case
   * keys of the API server and the camel-case keys of the client, provided
   * `items` is renamed to itself.
   */
  lemma {:induction false} MapKeysRoundTrip(f: string -> string, g: string -> string, v: Json)
    requires forall k :: g(f(k)) == k
    requires f("items") == "items"
    requires WellFormed(v)
    ensures MapKeys(g, MapKeys(f, v)) == v
    decreases v
  {
    match v
    case Obj(fields) =>
      forall i | 0 <= i < |fields| && fields[i].0 == "items"
        ensures MapKeys(g, MapKeys(f, fields[i].1)) == fields[i].1
      {
        MapKeysRoundTrip(f, g, fields[i].1);
      }
      ObjectRoundTrip(f, g, fields);
    case Arr(elems) =>
      forall i | 0 <= i < |elems| ensures MapKeys(g, MapKeys(f, elems[i])) == elems[i] {
        MapKeysRoundTrip(f, g, elems[i]);
      }
      ArrayRoundTrip(f, g, elems);
    case _ =>
  }

  lemma ObjectRoundTrip(f: string -> string, g: string -> string, fields: Entries<Json>)
    requires forall k :: g(f(k)) == k
    requires f("items") == "items"
    requires UniqueKeys(fields)
    requires forall i :: 0 <= i < |fields| && fields[i].0 == "items" ==> MapKeys(g, MapKeys(f, fields[i].1)) == fields[i].1
    ensures MapKeys(g, MapKeys(f, Obj(fields))) == Obj(fields)
  {
    var once := RenamedPairs(f, fields);
    RenamedUnique(f, g, fields);
    PutAllFresh(once);
    MapKeysObject(f, fields);
    assert MapKeys(f, Obj(fields)) == Obj(once);
    RenamedTwice(f, g, fields);
    PutAllFresh(fields);
    MapKeysObject(g, once);
  }

  /** Renaming with an invertible renaming keeps keys distinct. */
  lemma RenamedUnique(f: string -> string, g: string -> string, fields: Entries<Json>)
    requires forall k :: g(f(k)) == k
    requires UniqueKeys(fields)
    ensures UniqueKeys(RenamedPairs(f, fields))
  {
    var once := RenamedPairs(f, fields);
    forall i, j | 0 <= i < j < |once| ensures once[i].0 != once[j].0 {
      assert g(once[i].0) == fields[i].0 && g(once[j].0) == fields[j].0;
    }
  }

  /** Renaming the renamed pairs back gives the original pairs. */
  lemma RenamedTwice(f: string -> string, g: string -> string, fields: Entries<Json>)
    requires forall k :: g(f(k)) == k
    requires f("items") == "items"
    requires forall i :: 0 <= i < |fields| && fields[i].0 == "items" ==> MapKeys(g, MapKeys(f, fields[i].1)) == fields[i].1
    ensures RenamedPairs(g, RenamedPairs(f, fields)) == fields
  {
    var once := RenamedPairs(f, fields);
    var twice := RenamedPairs(g, once);
    forall i | 0 <= i < |fields| ensures twice[i] == fields[i] {
      RenamedTwiceAt(f, g, fields, i);
    }
  }

  lemma RenamedTwiceAt(f: string -> string, g: string -> string, fields: Entries<Json>, i: nat)
    requires forall k :: g(f(k)) == k
    requires f("items") == "items"
    requires i < |fields|
    requires fields[i].0 == "items" ==> MapKeys(g, MapKeys(f, fields[i].1)) == fields[i].1
    ensures RenamedPairs(g, RenamedPairs(f, fields))[i] == fields[i]
  {
    var (k, v) := fields[i];
    var once := RenamedPairs(f, fields);
    assert g(f(k)) == k;
    if k == "items" {
      assert once[i] == ("items", MapKeys(f, v));
    } else {
      assert f(k) != "items" by {
        assert g(f("items")) == "items";
      }
      assert once[i] == (f(k), v);
    }
  }

  lemma ArrayRoundTrip(f: string -> string, g: string -> string, elems: seq<Json>)
    requires forall i :: 0 <= i < |elems| ==> MapKeys(g, MapKeys(f, elems[i])) == elems[i]
    ensures MapKeys(g, MapKeys(f, Arr(elems))) == Arr(elems)
  {
    var once := MapKeys(f, Arr(elems)).elems;
    assert forall i :: 0 <= i < |elems| ==> once[i] == MapKeys(f, elems[i]);
    assert MapKeys(g, Arr(once)).elems == elems;
  }

  /** The arguments of `list`: `filters`, `order`, and all the others as the caller passes them. */
  datatype ListArguments = ListArguments(filters: Option<string>, order: Option<string>, other: Entries<Json>)

  /** A string argument that is absent or empty is falsy and becomes `undefined`. */
  function Truthy(s: Option<string>): bool
  {
    s.Some? && s.value != ""
  }

  /**
   * The query parameters of `list`: the other arguments with snake-case
   * keys, then `filters` wrapped in brackets and `order`, each `undefined`
   * when absent or empty.
   */
  function ListParams(snakeCase: string -> string, args: ListArguments): (params: Entries<Json>)
    ensures Get(params, "filters") == Some(if Truthy(args.filters) then Str("[" + args.filters.value + "]") else Undefined)
    ensures Get(params, "order") == Some(if Truthy(args.order) then Str(args.order.value) else Undefined)
    ensures forall k :: k != "filters" && k != "order" ==> Get(params, k) == Get(MapKeys(snakeCase, Obj(args.other)).fields, k)
  {
    var renamed := MapKeys(snakeCase, Obj(args.other)).fields;
    var filters := if Truthy(args.filters) then Str("[" + args.filters.value + "]") else Undefined;
    var order := if Truthy(args.order) then Str(args.order.value) else Undefined;
    var withFilters := Put(renamed, "filters", filters);
    PutGetAll(renamed, "filters", filters);
    PutGetAll(withFilters, "order", order);
    Put(withFilters, "order", order)
  }

  /**
   * The parameters list the renamed arguments first, in their order, then
   * `filters` and `order`, unless a renamed argument already took one of
   * those names and with it its place.
   */
  lemma ListParamsOrder(snakeCase: string -> string, args: ListArguments)
    ensures var renamed := Keys(MapKeys(snakeCase, Obj(args.other)).fields);
      var keys := Keys(ListParams(snakeCase, args));
      && |renamed| <= |keys| && keys[..|renamed|] == renamed
      && ("filters" !in renamed && "order" !in renamed ==> keys == renamed + ["filters", "order"])
  {
    var renamed := MapKeys(snakeCase, Obj(args.other)).fields;
    var filters := if Truthy(args.filters) then Str("[" + args.filters.value + "]") else Undefined;
    var order := if Truthy(args.order) then Str(args.order.value) else Undefined;
    assert ListParams(snakeCase, args) == Put(Put(renamed, "filters", filters), "order", order);
    PutTwiceKeys(renamed, "filters", filters, "order", order);
  }

  /** Longest encoded query string that is still sent as a GET. */
  const MaxGetQueryLength := 1500

  /** The request a `list` call issues. */
  datatype Request =
    | GetRequest(params: Entries<Json>)
    | PostRequest(form: Entries<Json>, query: Entries<Json>)

  /** The form field that makes the server treat a POST as a GET. */
  const MethodOverride: (string, Json) := ("_method", Str("GET"))

  predicate IsDefined(field: (string, Json))
  {
    field.1 != Undefined
  }

  /**
   * `list(args)`: a GET with the parameters when their encoding (by the
   * query-string library, `encodedLength`) is at most 1500 characters;
   * otherwise a POST whose form holds `_method=GET` and then every parameter
   * that is not `undefined`, in order, with `_method=GET` in the query too.
   */
  method List(args: ListArguments, snakeCase: string -> string, encodedLength: Entries<Json> -> nat)
    returns (req: Request)
    ensures var params := ListParams(snakeCase, args);
      && (req.GetRequest? <==> encodedLength(params) <= MaxGetQueryLength)
      && (req.GetRequest? ==> req.params == params)
      && (req.PostRequest? ==> req.query == [MethodOverride] && req.form == [MethodOverride] + Filter(params, IsDefined))
  {
    var params := ListParams(snakeCase, args);
    if encodedLength(params) <= MaxGetQueryLength {
      return GetRequest(params);
    }
    var form := PostForm(params);
    req := PostRequest(form, [MethodOverride]);
  }

  /** The form data of the POST: `_method=GET`, then each defined parameter in order. */
  method PostForm(params: Entries<Json>) returns (form: Entries<Json>)
    ensures form == [MethodOverride] + Filter(params, IsDefined)
  {
    form := [MethodOverride];
    var i := 0;
    while i < |params|
      invariant 0 <= i <= |params|
      invariant form == [MethodOverride] + Filter(params[..i], IsDefined)
    {
      if params[i].1 != Undefined {
        form := form + [params[i]];
      }
      assert params[..i + 1][..i] == params[..i];
      i := i + 1;
    }
    assert params[..|params|] == params;
  }
}
