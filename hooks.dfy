/** What the stream hooks share: the runtime's default child context, the "set one key"
    shape of the parameter and header overrides, and the zero-hint skip of `get_records`. */
module Hooks {

  import opened Wrappers
  import opened Json

  /** `result` is `base` with `k` set to `v`: no other key is added, removed or changed. */
  ghost predicate SetsOnly(base: Object, result: Object, k: string, v: Value)
  {
    && result.Keys == base.Keys + {k}
    && result[k] == v
    && forall j :: j in base && j != k ==> result[j] == base[j]
  }

  /** The runtime's own `get_child_context`, as the tap's docstring states it
      (tap_github/streams.py:38-40): the inbound context when one is given, else the record. */
  function DefaultChildContext(record: Object, context: Option<Object>): Object
  {
    if context.Some? then context.value else record
  }

  /** `context and context.get(hint, None) == 0`: a non-empty context whose hint is zero. */
  predicate ZeroHint(context: Option<Object>, hint: string)
  {
    context.Some? && Truthy(Obj(context.value)) && EqualsZero(Get(context.value, hint))
  }

  /** A `get_records` override that returns no rows when the hint is zero and otherwise
      delegates to the runtime's fetch, passed in as `fetch`. */
  function SkipWhenZero(hint: string, context: Option<Object>, fetch: Option<Object> -> seq<Object>): (rows: seq<Object>)
    ensures ZeroHint(context, hint) ==> rows == []
    ensures !ZeroHint(context, hint) ==> rows == fetch(context)
  {
    if ZeroHint(context, hint) then [] else fetch(context)
  }

  /** The fetch that finds nothing. */
  function NoRows(context: Option<Object>): seq<Object>
  {
    []
  }

  /** The hint fires exactly on a context that holds the hint with value 0 (or False). */
  lemma ZeroHintExactly(context: Option<Object>, hint: string)
    ensures ZeroHint(context, hint) <==>
      context.Some? && hint in context.value && (context.value[hint] == Int(0) || context.value[hint] == Bool(false))
  {
  }

  /** Skip equivalence: skipping yields what fetching and finding nothing yields, whatever
      the fetch would have returned, so the fetch is never consulted. */
  lemma SkipIsEmptyFetch(hint: string, context: Option<Object>, fetch: Option<Object> -> seq<Object>)
    requires ZeroHint(context, hint)
    ensures SkipWhenZero(hint, context, fetch) == SkipWhenZero(hint, context, NoRows) == []
  {
  }

  /** Copying `row[path...]` to the top-level key `key` (the post-processors of commits
      and stargazers): the nested read happens first, so a failure leaves the row as it was. */
  function Promote(row: Object, path: seq<string>, key: string): (r: Result<Object>)
    ensures r.Ok? <==> Dig(Obj(row), path).Ok?
    ensures r.Err? ==> r.error == Dig(Obj(row), path).error
    ensures r.Ok? ==> SetsOnly(row, r.value, key, Dig(Obj(row), path).value)
  {
    match Dig(Obj(row), path)
    case Err(e) => Err(e)
    case Ok(v) => Ok(row[key := v])
  }

  /** Promoting twice equals promoting once, as long as the target key is not the first
      step of the path. */
  lemma PromoteIdempotent(row: Object, path: seq<string>, key: string)
    requires path != [] && path[0] != key
    requires Promote(row, path, key).Ok?
    ensures Promote(Promote(row, path, key).value, path, key) == Promote(row, path, key)
  {
    var row' := Promote(row, path, key).value;
    assert Subscript(Obj(row'), path[0]) == Subscript(Obj(row), path[0]);
    assert Dig(Obj(row'), path) == Dig(Obj(row), path);
    assert row'[key := Dig(Obj(row), path).value] == row';
  }
}
