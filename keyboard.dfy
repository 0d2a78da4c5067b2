/**
 * Key dispatch: every component keeps one table of key bindings per key mode
 * (the standalone page, or a Jupyter notebook whose own shortcuts must not be
 * shadowed), and a key release runs the binding of the current mode for the
 * lower-cased key (vgridjs/src/keyboard.tsx, src/keyboard.tsx).
 *
 * A binding is a command value of the component's own command type `C`; the
 * component runs the command it gets back, once.
 */
module Keyboard {
  import opened Js
  import Text

  /** The key modes of the front end (`'Standalone'`, `'Jupyter'`). */
  datatype KeyMode = Standalone | Jupyter

  /** The modes of the older front end, which are numbers. */
  const LegacyStandalone: int := 1
  const LegacyJupyter: int := 2

  /** `key_dispatch(settings, methods, key)`: only the table of the current mode
      is read; a key with no binding gives `null` and runs nothing; a mode
      without a table throws. */
  function KeyDispatch<M(==), C>(methods: seq<(M, seq<(string, C)>)>, mode: M, key: string): (r: Result<Option<C>>)
    ensures r.Err? <==> !HasKey(methods, mode)
    ensures r.Ok? ==> (r.value.Some? <==> HasKey(Get(methods, mode).value, Text.ToLower(key)))
    ensures r.Ok? && r.value.Some? ==> exists i :: 0 <= i < |Get(methods, mode).value|
                                        && Get(methods, mode).value[i] == (Text.ToLower(key), r.value.value)
  {
    match Get(methods, mode)
    case None => Err(TypeError("mode_methods is undefined"))
    case Some(table) => Ok(Get(table, Text.ToLower(key)))
  }

  /** Keys that differ only in the case of ASCII letters run the same binding. */
  lemma DispatchIgnoresCase<M, C>(methods: seq<(M, seq<(string, C)>)>, mode: M, k1: string, k2: string)
    requires Text.ToLower(k1) == Text.ToLower(k2)
    ensures KeyDispatch(methods, mode, k1) == KeyDispatch(methods, mode, k2)
  {
  }

  /** The tables of the other modes play no part. */
  lemma DispatchReadsOnlyMode<M, C>(m1: seq<(M, seq<(string, C)>)>, m2: seq<(M, seq<(string, C)>)>, mode: M, key: string)
    requires Get(m1, mode) == Get(m2, mode)
    ensures KeyDispatch(m1, mode, key) == KeyDispatch(m2, mode, key)
  {
  }
}
