/** The feature vectors built by the predictors' `preprocess_data`: a list
  * literal whose entries read `data[field]` (a missing key raises KeyError),
  * most of them divided by a fixed scale. */
module Features {
  import opened Wrappers
  import opened Records
  import BasePredictor

  /** One entry per feature: the field it reads and the scale it is divided
    * by (a plain `data[field]` has scale 1). */
  type FeatureTable = seq<(string, real)>

  predicate ScalesNonZero(table: FeatureTable)
  {
    forall k :: 0 <= k < |table| ==> table[k].1 != 0.0
  }

  /** The field names of a feature table or a schema, in order. */
  function Names<T>(entries: seq<(string, T)>): (names: seq<string>)
    ensures |names| == |entries| && forall k :: 0 <= k < |entries| ==> names[k] == entries[k].0
  {
    seq(|entries|, k requires 0 <= k < |entries| => entries[k].0)
  }

  /** The vector a table builds from a record; None is the KeyError of a
    * missing field. Feature `k` is field `k`'s value over its scale. */
  function FeatureVector(table: FeatureTable, data: Record): (r: Option<seq<real>>)
    requires ScalesNonZero(table)
    ensures r.None? <==> exists k :: 0 <= k < |table| && table[k].0 !in data
    ensures r.Some? ==> |r.value| == |table|
    ensures r.Some? ==> forall k :: 0 <= k < |table| ==> r.value[k] == data[table[k].0] / table[k].1
    decreases |table|
  {
    if table == [] then Some([])
    else if table[0].0 !in data then None
    else
      var rest := FeatureVector(table[1..], data);
      assert forall k :: 1 <= k < |table| ==> table[1..][k - 1] == table[k];
      if rest.None? then None
      else Some([data[table[0].0] / table[0].1] + rest.value)
  }

  /** A vector in which every entry whose field has a derived value (a ratio
    * or a rescaled reading computed first) carries that value instead of the
    * field over its scale. */
  function WithDerived(table: FeatureTable, data: Record, derived: map<string, real>): (r: Option<seq<real>>)
    requires ScalesNonZero(table)
    ensures r.None? <==> exists k :: 0 <= k < |table| && table[k].0 !in data
    ensures r.Some? ==> |r.value| == |table|
    ensures r.Some? ==> forall k :: 0 <= k < |table| ==>
              r.value[k] == if table[k].0 in derived then derived[table[k].0] else data[table[k].0] / table[k].1
  {
    var plain := FeatureVector(table, data);
    if plain.None? then None
    else Some(seq(|table|, k requires 0 <= k < |table| => if table[k].0 in derived then derived[table[k].0] else plain.value[k]))
  }

  /** A table that lists a schema's fields in declaration order yields one
    * feature per required field, and a request carrying every required field
    * always yields a vector. */
  lemma AlignedTableFacts(table: FeatureTable, schema: BasePredictor.Schema, data: Record)
    requires ScalesNonZero(table) && Names(table) == Names(schema)
    ensures (forall k :: 0 <= k < |schema| ==> schema[k].0 in data) ==>
              FeatureVector(table, data).Some? && |FeatureVector(table, data).value| == |schema|
    ensures forall k :: 0 <= k < |schema| ==> table[k].0 == schema[k].0
  {
    forall k | 0 <= k < |schema|
      ensures table[k].0 == schema[k].0
    {
      assert Names(table)[k] == Names(schema)[k];
    }
  }
}
