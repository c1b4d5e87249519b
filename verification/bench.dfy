/**
 * The truncating `Debug` formatting of src/bench.rs: `LimitedVec` prints at
 * most `LIMIT` elements of its vector and, when it holds more, one `...`
 * marker after them. The element type's own `Debug` formatting is a parameter
 * `show`; `debug_list` is modelled in its plain (non-alternate) form,
 * `[a, b, c]`.
 */
module Bench {
  import opened Numeric

  /** `OrMore<T>`: an element, or the marker that stands for the elements left out. */
  datatype OrMore<T> = Value(t: T) | More

  const LIMIT: nat := 4

  /** `OrMore::fmt`: a value prints as itself, the marker as `...`. */
  function RenderOrMore<T>(o: OrMore<T>, show: T -> string): string {
    match o
    case Value(t) => show(t)
    case More => "..."
  }

  /** The entries separated by `", "`. */
  function Join(items: seq<string>): string {
    if |items| == 0 then ""
    else if |items| == 1 then items[0]
    else items[0] + ", " + Join(items[1..])
  }

  /** `f.debug_list().entries(items).finish()`. */
  function DebugList(items: seq<string>): string {
    "[" + Join(items) + "]"
  }

  /** How a whole `Vec<T>` prints with `{:?}`. */
  function VecDebug<T>(v: seq<T>, show: T -> string): string {
    DebugList(seq(|v|, i requires 0 <= i < |v| => show(v[i])))
  }

  /**
   * The entries of the long branch (lines 31-35): the first `LIMIT` elements
   * as values, then one marker.
   */
  function MarkedEntries<T>(v: seq<T>): (e: seq<OrMore<T>>)
    requires |v| > LIMIT
    ensures |e| == LIMIT + 1
    ensures forall i :: 0 <= i < LIMIT ==> e[i] == Value(v[i])
    ensures forall i :: 0 <= i < |e| ==> (e[i].More? <==> i == LIMIT)
  {
    seq(LIMIT, i requires 0 <= i < LIMIT => Value(v[i])) + [More]
  }

  /**
   * The rendered entries `LimitedVec::fmt` hands to `debug_list`: the
   * elements themselves when there are at most `LIMIT` of them (line 27),
   * otherwise the marked entries (lines 29-36).
   */
  function Items<T>(v: seq<T>, show: T -> string): (items: seq<string>)
    ensures |items| == Min(|v|, LIMIT) + (if |v| > LIMIT then 1 else 0)
    ensures forall i :: 0 <= i < Min(|v|, LIMIT) ==> items[i] == show(v[i])
    ensures |v| > LIMIT ==> items[LIMIT] == "..."
  {
    if |v| <= LIMIT then
      seq(|v|, i requires 0 <= i < |v| => show(v[i]))
    else
      var e := MarkedEntries(v);
      seq(|e|, i requires 0 <= i < |e| => RenderOrMore(e[i], show))
  }

  /** `<LimitedVec<T> as Debug>::fmt`. */
  function LimitedVecDebug<T>(v: seq<T>, show: T -> string): string {
    DebugList(Items(v, show))
  }

  /** Appending one more entry adds a separator and the entry. */
  lemma {:induction false} JoinAppend(items: seq<string>, last: string)
    requires |items| > 0
    ensures Join(items + [last]) == Join(items) + ", " + last
    decreases |items|
  {
    if |items| == 1 {
      assert (items + [last])[1..] == [last];
    } else {
      assert (items + [last])[1..] == items[1..] + [last];
      JoinAppend(items[1..], last);
    }
  }

  /** A vector of at most `LIMIT` elements prints exactly as the plain vector does. */
  lemma ShortVecPrintsWhole<T>(v: seq<T>, show: T -> string)
    requires |v| <= LIMIT
    ensures LimitedVecDebug(v, show) == VecDebug(v, show)
  {
    assert Items(v, show) == seq(|v|, i requires 0 <= i < |v| => show(v[i]));
  }

  /**
   * A longer vector prints as its first `LIMIT` elements would, with `, ...`
   * before the closing bracket.
   */
  lemma LongVecPrintsPrefixAndMarker<T>(v: seq<T>, show: T -> string)
    requires |v| > LIMIT
    ensures LimitedVecDebug(v, show) == "[" + Join(Items(v[..LIMIT], show)) + ", ...]"
    ensures Items(v[..LIMIT], show) == seq(LIMIT, i requires 0 <= i < LIMIT => show(v[i]))
  {
    var items := Items(v, show);
    var prefix := Items(v[..LIMIT], show);
    assert items == prefix + ["..."];
    JoinAppend(prefix, "...");
  }

  /**
   * Once a vector is longer than `LIMIT`, what it prints depends only on its
   * first `LIMIT` elements.
   */
  lemma LongVecOutputDependsOnPrefix<T>(v: seq<T>, w: seq<T>, show: T -> string)
    requires |v| > LIMIT && |w| > LIMIT && v[..LIMIT] == w[..LIMIT]
    ensures LimitedVecDebug(v, show) == LimitedVecDebug(w, show)
  {
    LongVecPrintsPrefixAndMarker(v, show);
    LongVecPrintsPrefixAndMarker(w, show);
  }
}
