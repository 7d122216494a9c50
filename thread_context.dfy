/**
  The log4j thread context as seen by this library: a map from key names to
  values, and the scoping that CloseableThreadContext gives it. `putAll`
  overlays a map on the current context and remembers, for every key it
  touches, the value that key had before (or that it was absent); `close`
  puts those remembered values back and removes the keys that were absent.
 */
module ThreadContext {
  import opened Wrappers

  type Context = map<string, string>

  /** The values that CloseableThreadContext.putAll(values) remembers. */
  function Saved(ctx: Context, values: Context): (saved: map<string, Option<string>>)
    ensures saved.Keys == values.Keys
  {
    map k | k in values :: if k in ctx then Some(ctx[k]) else None
  }

  /** The context while a scope opened with putAll(values) is in force. */
  function PutAll(ctx: Context, values: Context): (r: Context)
    ensures forall k :: k in values ==> k in r && r[k] == values[k]
    ensures forall k :: k !in values ==> (k in r <==> k in ctx)
    ensures forall k :: k in ctx && k !in values ==> r[k] == ctx[k]
  {
    ctx + values
  }

  /** The context after close(): remembered values are put back and keys that
      were absent are removed; every other key keeps its current value. */
  function Restore(ctx: Context, saved: map<string, Option<string>>): (r: Context)
    ensures forall k :: k in saved && saved[k].Some? ==> k in r && r[k] == saved[k].value
    ensures forall k :: k in saved && saved[k].None? ==> k !in r
    ensures forall k :: k !in saved ==> (k in r <==> k in ctx)
    ensures forall k :: k in ctx && k !in saved ==> r[k] == ctx[k]
  {
    map k | k in ctx.Keys + saved.Keys && (k !in saved || saved[k].Some?) ::
      if k in saved then saved[k].value else ctx[k]
  }

  /** Closing a scope undoes its putAll exactly, whatever the map was. */
  lemma RestoreUndoesPutAll(ctx: Context, values: Context)
    ensures Restore(PutAll(ctx, values), Saved(ctx, values)) == ctx
  {
    var r := Restore(PutAll(ctx, values), Saved(ctx, values));
    forall k ensures (k in r <==> k in ctx) && (k in r ==> r[k] == ctx[k]) {
    }
  }
}
