/** Binary input data and the uploads to object storage that precede a submission. The upload
    itself (a put and a get against the `workbench-artifacts` bucket) is opaque: it returns or
    it throws. */
module Uploads {
  import opened Wrappers
  import opened Seqs

  /** One entry of an item's `binary` object: its base64 `data` and its optional `fileName`. */
  datatype BinaryFile = BinaryFile(data: string, fileName: Option<string>)

  /** A key of the `binary` object and its entry, kept in `Object.entries` order. */
  datatype BinaryProperty = BinaryProperty(key: string, file: BinaryFile)

  /** One call of the upload helper: the object key (`destFileName`, possibly undefined) and the
      payload. The base64 decoding of the payload is not modelled. */
  datatype Upload = Upload(key: Option<string>, data: string)

  /** The uploads an item's binary properties cause when each goes under key `key`. */
  function SameKeyUploads(props: seq<BinaryProperty>, key: Option<string>): (plan: seq<Upload>)
    ensures |plan| == |props|
    ensures forall i :: 0 <= i < |plan| ==> plan[i] == Upload(key, props[i].file.data)
  {
    seq(|props|, i requires 0 <= i < |props| => Upload(key, props[i].file.data))
  }

  /** The awaited uploads, one after another: the first that throws ends the sequence and its
      index is returned; None means every upload returned. */
  method PerformUploads(plan: seq<Upload>, fails: Upload -> bool) returns (failed: Option<nat>)
    ensures failed == FirstMatch(plan, fails)
  {
    var i := 0;
    while i < |plan|
      invariant 0 <= i <= |plan|
      invariant forall j :: 0 <= j < i ==> !fails(plan[j])
    {
      if fails(plan[i]) {
        return Some(i);
      }
      i := i + 1;
    }
    return None;
  }
}
