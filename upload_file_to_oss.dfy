/** The UploadFileToOSS node. Every binary property of every item that has any is uploaded under
    its own file name, one after another, and recorded once its upload returns; without a single
    record the node answers with one `No files uploaded` message instead. */
module UploadFileToOss {
  import opened Wrappers
  import opened Seqs
  import opened ItemLoop
  import opened Uploads

  /** An input item: its binary object, if any. */
  datatype Item = Item(binary: Option<seq<BinaryProperty>>)

  /** One element of the output: `{fileName, success: true}` for an uploaded file, or the
      fallback `{message}`. */
  datatype OutputItem = UploadRecord(fileName: Option<string>, success: bool) | Message(text: string)

  /** An item takes part only when it has a binary object with at least one key. */
  predicate HasFiles(item: Item)
  {
    item.binary.Some? && |item.binary.value| > 0
  }

  /** The uploads one item causes: each binary property under its own `fileName`, in property
      order. */
  function ItemPlan(item: Item): (plan: seq<Upload>)
    ensures !HasFiles(item) ==> plan == []
    ensures HasFiles(item) ==> |plan| == |item.binary.value| && forall j :: 0 <= j < |plan| ==>
      plan[j] == Upload(item.binary.value[j].file.fileName, item.binary.value[j].file.data)
  {
    if HasFiles(item) then
      var props := item.binary.value;
      seq(|props|, j requires 0 <= j < |props| => Upload(props[j].file.fileName, props[j].file.data))
    else []
  }

  /** The uploads of all items, item after item. */
  function Plan(items: seq<Item>): seq<Upload>
  {
    if items == [] then [] else Plan(items[..|items| - 1]) + ItemPlan(items[|items| - 1])
  }

  lemma {:induction false} PlanAppend(a: seq<Item>, b: seq<Item>)
    ensures Plan(a + b) == Plan(a) + Plan(b)
  {
    if b != [] {
      var n := |b| - 1;
      assert (a + b)[..|a + b| - 1] == a + b[..n];
      PlanAppend(a, b[..n]);
    } else {
      assert a + b == a;
    }
  }

  /** Property `j` of item `i` is upload number `|Plan(items[..i])| + j`: uploads follow item
      order, and property order within an item. */
  lemma PlanPosition(items: seq<Item>, i: nat, j: nat)
    requires i < |items| && j < |ItemPlan(items[i])|
    ensures |Plan(items[..i])| + j < |Plan(items)|
    ensures Plan(items)[|Plan(items[..i])| + j] == ItemPlan(items[i])[j]
  {
    assert items == items[..i + 1] + items[i + 1..];
    PlanAppend(items[..i + 1], items[i + 1..]);
    assert items[..i + 1][..i] == items[..i];
  }

  /** Nothing is uploaded exactly when no item has a non-empty binary object. */
  lemma {:induction false} PlanEmptyIff(items: seq<Item>)
    ensures Plan(items) == [] <==> forall i :: 0 <= i < |items| ==> !HasFiles(items[i])
  {
    if items != [] {
      var n := |items| - 1;
      PlanEmptyIff(items[..n]);
      forall i | 0 <= i < n ensures items[..n][i] == items[i] { }
    }
  }

  /** One record per completed upload, naming its file. */
  function Records(plan: seq<Upload>): (records: seq<OutputItem>)
    ensures |records| == |plan| && forall k :: 0 <= k < |plan| ==> records[k] == UploadRecord(plan[k].key, true)
  {
    seq(|plan|, k requires 0 <= k < |plan| => UploadRecord(plan[k].key, true))
  }

  /** What `execute` returns: the records, or the single fallback message when there are none. */
  function Answer(records: seq<OutputItem>): seq<OutputItem>
  {
    if |records| > 0 then records else [Message("No files uploaded")]
  }

  /** `execute`: the first upload that throws is what the node throws; otherwise the answer. */
  function Outcome(uploadFails: Upload -> bool, items: seq<Item>): RunOutcome<OutputItem>
  {
    var plan := Plan(items);
    match FirstMatch(plan, uploadFails)
    case Some(k) => Threw(UploadFailed(plan[k].key))
    case None => Returned(Answer(Records(plan)))
  }

  /** The fallback is answered exactly when no item had a file to upload; the answer is never
      empty, so the next node always has an item to read. */
  lemma FallbackIffNoFiles(uploadFails: Upload -> bool, items: seq<Item>)
    requires Outcome(uploadFails, items).Returned?
    ensures |Outcome(uploadFails, items).data| > 0
    ensures Outcome(uploadFails, items).data == [Message("No files uploaded")] <==>
      forall i :: 0 <= i < |items| ==> !HasFiles(items[i])
  {
    PlanEmptyIff(items);
    var records := Records(Plan(items));
    if |records| > 0 {
      assert records[0].UploadRecord?;
    }
  }

  /** A returned answer with records has one per binary property, in item and property order,
      each naming that property's file. */
  lemma RecordForEachProperty(uploadFails: Upload -> bool, items: seq<Item>, i: nat, j: nat)
    requires Outcome(uploadFails, items).Returned?
    requires i < |items| && HasFiles(items[i]) && j < |items[i].binary.value|
    ensures var k := |Plan(items[..i])| + j;
      k < |Outcome(uploadFails, items).data| &&
      Outcome(uploadFails, items).data[k] == UploadRecord(items[i].binary.value[j].file.fileName, true)
  {
    PlanPosition(items, i, j);
  }

  predicate NoneFail(plan: seq<Upload>, uploadFails: Upload -> bool)
  {
    forall m :: 0 <= m < |plan| ==> !uploadFails(plan[m])
  }

  lemma RecordsSnoc(plan: seq<Upload>, u: Upload)
    ensures Records(plan + [u]) == Records(plan) + [UploadRecord(u.key, true)]
  {
  }

  /** The inner loop over one item's binary properties: each upload awaited before its record is
      pushed, stopping at the first upload that throws. */
  method UploadProperties(uploadFails: Upload -> bool, ghost done: seq<Upload>, props: seq<Upload>, records: seq<OutputItem>)
    returns (failed: Option<nat>, returnData: seq<OutputItem>)
    requires NoneFail(done, uploadFails) && records == Records(done)
    ensures failed.None? ==> NoneFail(done + props, uploadFails) && returnData == Records(done + props)
    ensures failed.Some? ==>
      failed.value < |props| && uploadFails(props[failed.value]) && NoneFail(done + props[..failed.value], uploadFails) &&
      returnData == Records(done + props[..failed.value])
  {
    returnData := records;
    var j := 0;
    while j < |props|
      invariant 0 <= j <= |props|
      invariant NoneFail(done + props[..j], uploadFails)
      invariant returnData == Records(done + props[..j])
    {
      if uploadFails(props[j]) {
        return Some(j), returnData;
      }
      assert done + props[..j + 1] == (done + props[..j]) + [props[j]];
      RecordsSnoc(done + props[..j], props[j]);
      returnData := returnData + [UploadRecord(props[j].key, true)];
      j := j + 1;
    }
    assert props[..j] == props;
    failed := None;
  }

  /** The loops: items in order, and within an item its binary properties in order. */
  method Execute(uploadFails: Upload -> bool, items: seq<Item>) returns (o: RunOutcome<OutputItem>)
    ensures o == Outcome(uploadFails, items)
  {
    var returnData: seq<OutputItem> := [];
    var i := 0;
    while i < |items|
      invariant 0 <= i <= |items|
      invariant NoneFail(Plan(items[..i]), uploadFails)
      invariant returnData == Records(Plan(items[..i]))
    {
      var props := ItemPlan(items[i]);
      var failed;
      failed, returnData := UploadProperties(uploadFails, Plan(items[..i]), props, returnData);
      if failed.Some? {
        FirstFailure(uploadFails, items, i, failed.value);
        return Threw(UploadFailed(props[failed.value].key));
      }
      PlanSnoc(items, i);
      i := i + 1;
    }
    assert items[..i] == items;
    return Returned(Answer(returnData));
  }

  /** The items up to item `i` are the items before it, then its own uploads. */
  lemma PlanSnoc(items: seq<Item>, i: nat)
    requires i < |items|
    ensures Plan(items[..i + 1]) == Plan(items[..i]) + ItemPlan(items[i])
  {
    assert items[..i + 1][..i] == items[..i];
  }

  /** The plan around item `i`: the items up to it, then the items after it. */
  lemma PlanSplit(items: seq<Item>, i: nat)
    requires i < |items|
    ensures Plan(items) == Plan(items[..i + 1]) + Plan(items[i + 1..])
  {
    PlanAppend(items[..i + 1], items[i + 1..]);
    assert items[..i + 1] + items[i + 1..] == items;
  }

  /** A failing upload that follows only successful ones is the first failure of the whole plan. */
  lemma FirstFailure(uploadFails: Upload -> bool, items: seq<Item>, i: nat, j: nat)
    requires i < |items| && j < |ItemPlan(items[i])| && uploadFails(ItemPlan(items[i])[j])
    requires NoneFail(Plan(items[..i]) + ItemPlan(items[i])[..j], uploadFails)
    ensures Outcome(uploadFails, items) == Threw(UploadFailed(ItemPlan(items[i])[j].key))
  {
    var done := Plan(items[..i]);
    var props := ItemPlan(items[i]);
    var plan := Plan(items);
    PlanSplit(items, i);
    PlanSnoc(items, i);
    var k := |done| + j;
    var upTo := Plan(items[..i + 1]);
    assert plan[k] == upTo[k] == props[j];
    assert plan[..k] == upTo[..k] == done + props[..j];
    FirstMatchAt(plan, uploadFails, k);
  }

  lemma FirstMatchAt(plan: seq<Upload>, uploadFails: Upload -> bool, k: nat)
    requires k < |plan| && uploadFails(plan[k]) && NoneFail(plan[..k], uploadFails)
    ensures FirstMatch(plan, uploadFails) == Some(k)
  {
    forall m | 0 <= m < k ensures !uploadFails(plan[m]) {
      assert plan[m] == plan[..k][m];
    }
  }
}
