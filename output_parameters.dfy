/** The output-parameter normaliser `transformOutputParameters`, which the GPT, CreateTopic,
    AcceptFileArtifact, UploadFileToOSS and QuidQuestions nodes each define identically: a
    `reduce` over a list of `{name, value}` entries into an object keyed by name. */
module OutputParameters {
  import opened Wrappers
  import opened JsText

  /** One entry of an `outputs.parameters` list. The value may be missing, and an entry may carry
      fields besides `name` and `value` (a `valueFrom`, a description); the normaliser drops them. */
  datatype RawParameter = RawParameter(name: string, value: Option<Json>, extra: map<string, Json>)

  /** What the normaliser stores under a name: the object `{name, value}`. */
  datatype NamedValue = NamedValue(name: string, value: Option<Json>)

  function Names(ps: seq<RawParameter>): set<string>
  {
    set i | 0 <= i < |ps| :: ps[i].name
  }

  /** The normalised object for a present list: the reduce, seeded with `{}`, where each entry
      spreads the accumulator and then sets its own name. The result has one key per distinct
      name, and each key maps to an object carrying that key as its name. */
  function Normalize(ps: seq<RawParameter>): (m: map<string, NamedValue>)
    ensures m.Keys == Names(ps)
    ensures forall k :: k in m ==> m[k].name == k
    decreases |ps|
  {
    if ps == [] then map[]
    else
      var init := ps[..|ps| - 1];
      var last := ps[|ps| - 1];
      var m := Normalize(init)[last.name := NamedValue(last.name, last.value)];
      assert Names(ps) == Names(init) + {last.name} by {
        forall k | k in Names(ps) ensures k in Names(init) + {last.name} {
          var i :| 0 <= i < |ps| && ps[i].name == k;
          if i < |ps| - 1 { assert init[i] == ps[i]; }
        }
        forall k | k in Names(init) ensures k in Names(ps) {
          var i :| 0 <= i < |init| && init[i].name == k;
          assert ps[i] == init[i];
        }
      }
      m
  }

  /** Every value of the normalised object is the value of some entry of that name. */
  lemma {:induction false} NormalizeValueFromInput(ps: seq<RawParameter>, k: string)
    requires k in Normalize(ps)
    ensures exists i :: 0 <= i < |ps| && ps[i].name == k && Normalize(ps)[k].value == ps[i].value
    decreases |ps|
  {
    var init := ps[..|ps| - 1];
    var last := ps[|ps| - 1];
    if k != last.name {
      NormalizeValueFromInput(init, k);
      var i :| 0 <= i < |init| && init[i].name == k && Normalize(init)[k].value == init[i].value;
      assert ps[i] == init[i];
    } else {
      assert ps[|ps| - 1].name == k;
    }
  }

  /** `transformOutputParameters(parameters)`: `undefined` for an absent list (the optional call
      `parameters?.reduce`), `{}` for an empty one, and otherwise an object with one key per name. */
  function TransformOutputParameters(parameters: Option<seq<RawParameter>>): (r: Option<map<string, NamedValue>>)
    ensures r.None? <==> parameters.None?
    ensures parameters == Some([]) ==> r == Some(map[])
    ensures parameters.Some? ==> r.value.Keys == Names(parameters.value)
  {
    match parameters
    case None => None
    case Some(ps) => Some(Normalize(ps))
  }

  /** Last write wins: the key of an entry that no later entry shares holds that entry's value. */
  lemma {:induction false} NormalizeLastWins(ps: seq<RawParameter>, i: nat)
    requires i < |ps|
    requires forall j :: i < j < |ps| ==> ps[j].name != ps[i].name
    ensures ps[i].name in Normalize(ps)
    ensures Normalize(ps)[ps[i].name] == NamedValue(ps[i].name, ps[i].value)
  {
    if i < |ps| - 1 {
      var init := ps[..|ps| - 1];
      assert init[i] == ps[i];
      forall j | i < j < |init| ensures init[j].name != init[i].name {
        assert init[j] == ps[j];
      }
      NormalizeLastWins(init, i);
    }
  }

  /** One more entry sets its own name last. */
  lemma NormalizeSnoc(ps: seq<RawParameter>, r: RawParameter)
    ensures Normalize(ps + [r]) == Normalize(ps)[r.name := NamedValue(r.name, r.value)]
  {
    assert (ps + [r])[..|ps|] == ps;
  }

  lemma MergeUpdate<V>(a: map<string, V>, b: map<string, V>, k: string, v: V)
    ensures (a + b)[k := v] == a + b[k := v]
  {
  }

  /** Normalising a concatenation is normalising each part, the later part overriding the
      earlier one key by key. */
  lemma {:induction false} NormalizeAppend(ps: seq<RawParameter>, qs: seq<RawParameter>)
    ensures Normalize(ps + qs) == Normalize(ps) + Normalize(qs)
    decreases |qs|
  {
    if qs == [] {
      assert ps + qs == ps;
    } else {
      var qinit := qs[..|qs| - 1];
      var last := qs[|qs| - 1];
      assert qs == qinit + [last];
      assert ps + qs == (ps + qinit) + [last];
      NormalizeAppend(ps, qinit);
      NormalizeSnoc(ps + qinit, last);
      NormalizeSnoc(qinit, last);
      MergeUpdate(Normalize(ps), Normalize(qinit), last.name, NamedValue(last.name, last.value));
    }
  }

  /** With distinct names, the normalised object holds exactly the input pairs, one key per entry. */
  lemma {:induction false} NormalizeDistinctNames(ps: seq<RawParameter>)
    requires forall i, j :: 0 <= i < j < |ps| ==> ps[i].name != ps[j].name
    ensures |Normalize(ps)| == |ps|
    ensures forall i :: 0 <= i < |ps| ==> Normalize(ps)[ps[i].name] == NamedValue(ps[i].name, ps[i].value)
  {
    forall i | 0 <= i < |ps| ensures Normalize(ps)[ps[i].name] == NamedValue(ps[i].name, ps[i].value) {
      NormalizeLastWins(ps, i);
    }
    if ps != [] {
      var init := ps[..|ps| - 1];
      var last := ps[|ps| - 1];
      forall i, j | 0 <= i < j < |init| ensures init[i].name != init[j].name {
        assert init[i] == ps[i] && init[j] == ps[j];
      }
      NormalizeDistinctNames(init);
      assert last.name !in Normalize(init);
    }
  }

  /** `qs` lists the entries of the normalised object `m` again: each element is one of `m`'s
      entries, and every key of `m` has an element. */
  ghost predicate Relists(qs: seq<RawParameter>, m: map<string, NamedValue>)
  {
    (forall i :: 0 <= i < |qs| ==> qs[i].name in m && m[qs[i].name] == NamedValue(qs[i].name, qs[i].value)) &&
    (forall k :: k in m ==> exists i :: 0 <= i < |qs| && qs[i].name == k)
  }

  /** Idempotence: normalising the entries of a normalised object, in any order and with any
      repetition, gives that object back. */
  lemma NormalizeIdempotent(ps: seq<RawParameter>, qs: seq<RawParameter>)
    requires Relists(qs, Normalize(ps))
    ensures Normalize(qs) == Normalize(ps)
  {
    var m, n := Normalize(ps), Normalize(qs);
    assert n.Keys == m.Keys by {
      forall k | k in m ensures k in n {
        var i :| 0 <= i < |qs| && qs[i].name == k;
      }
    }
    forall k | k in n ensures n[k] == m[k] {
      NormalizeValueFromInput(qs, k);
      var i :| 0 <= i < |qs| && qs[i].name == k && n[k].value == qs[i].value;
      assert m[k] == NamedValue(k, qs[i].value);
    }
  }
}
