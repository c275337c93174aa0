/** Shared vocabulary of the model: row identifiers, fixed-point numbers, optional values,
    results, JSON values and Python's truthiness rules. */
module Common {

  /** Row identifiers (uuid4 strings in the store). */
  type Id = string

  /** A Numeric(10,2) column value (money, weights, dimensions), as an integer count of hundredths. */
  type Fixed2 = int

  /** An optional value; also stands for a dictionary key that may be absent. */
  datatype Option<T> = None | Some(value: T) {
    /** `d.get(key, default)` */
    function GetOr(default: T): T {
      if Some? then value else default
    }
  }

  /** The outcome of an operation that may raise: `Err` carries what the source raises or returns. */
  datatype Result<T, E> = Ok(value: T) | Err(error: E)

  /** The JSON values the model builds into request bodies. */
  datatype Json = JInt(i: int) | JDec(d: Fixed2) | JStr(s: string) | JObj(fields: map<string, Json>)

  /** `bool(s)` for an optional string: None and "" are false. */
  predicate Truthy(s: Option<string>) {
    s.Some? && s.value != ""
  }

  /** `bool(n)` for an optional number: None and 0 are false. */
  predicate TruthyNum(n: Option<int>) {
    n.Some? && n.value != 0
  }

  /** `s or default` for an optional string. */
  function OrElse(s: Option<string>, default: string): string {
    if Truthy(s) then s.value else default
  }

  /** `n or 0` for an optional number. */
  function OrZero(n: Option<int>): int {
    if n.Some? then n.value else 0
  }

  /** No id occurs twice. */
  predicate Distintos<T(==)>(s: seq<T>) {
    forall j, l :: 0 <= j < l < |s| ==> s[j] != s[l]
  }

  /** `ordem` is what `query.all()` enumerates of table `m`: every key, each once. */
  predicate Enumera<V>(m: map<Id, V>, ordem: seq<Id>) {
    && Distintos(ordem)
    && (forall j :: 0 <= j < |ordem| ==> ordem[j] in m)
    && (forall k :: k in m ==> k in ordem)
  }

  /** The keys of `m` whose value satisfies `p`, as a sub-map. */
  function Restrict<V>(m: map<Id, V>, p: V -> bool): (r: map<Id, V>)
    ensures forall k :: k in r <==> k in m && p(m[k])
    ensures forall k :: k in r ==> r[k] == m[k]
  {
    map k | k in m && p(m[k]) :: m[k]
  }

  /** The rows `vs` stored under the fresh ids `ids`, row `j` under `ids[j]`. */
  function Indexar<V>(ids: seq<Id>, vs: seq<V>): (r: map<Id, V>)
    requires |ids| == |vs|
    ensures r.Keys == set j | 0 <= j < |ids| :: ids[j]
    decreases |vs|
  {
    if vs == [] then map[] else Indexar(ids[..|ids| - 1], vs[..|vs| - 1])[ids[|ids| - 1] := vs[|vs| - 1]]
  }

  /** Storing one more row into a table that already holds the earlier rows. */
  lemma IndexarMais<V>(T: map<Id, V>, ids: seq<Id>, vs: seq<V>, v: V, i: int)
    requires 0 <= i < |ids| && |vs| == i
    ensures (T + Indexar(ids[..i], vs))[ids[i] := v] == T + Indexar(ids[..i + 1], vs + [v])
  {
    assert ids[..i + 1][..i] == ids[..i];
    assert (vs + [v])[..i] == vs;
  }

  /** With distinct ids, the row under `ids[j]` is row `j`. */
  lemma {:induction false} IndexarEm<V>(ids: seq<Id>, vs: seq<V>, j: int)
    requires |ids| == |vs| && 0 <= j < |vs|
    requires forall a, b :: 0 <= a < b < |ids| ==> ids[a] != ids[b]
    ensures ids[j] in Indexar(ids, vs) && Indexar(ids, vs)[ids[j]] == vs[j]
    decreases |vs|
  {
    var n := |vs|;
    var ids', vs' := ids[..n - 1], vs[..n - 1];
    assert Indexar(ids, vs) == Indexar(ids', vs')[ids[n - 1] := vs[n - 1]];
    if j < n - 1 {
      forall a, b | 0 <= a < b < |ids'|
        ensures ids'[a] != ids'[b]
      {
        assert ids'[a] == ids[a] && ids'[b] == ids[b];
      }
      IndexarEm(ids', vs', j);
      assert ids[j] != ids[n - 1];
    }
  }
}
