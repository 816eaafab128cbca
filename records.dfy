/** The prediction page's session store: an ordered list of submitted
    slider readings, each with the label the classifier gave it. Records
    are appended at the end, deleted by position, or all cleared at once. */
module Records {
  import Dataset

  const Abnormal: string := "abnormal"
  const Normal: string := "normal"

  /** The slider readings of one submission, keyed by attribute name. */
  type Input = map<string, real>

  /** One stored row: the readings plus the "Prediction" column. */
  datatype Record = Record(input: Input, prediction: string)

  /** The label shown for a raw classifier output: 0 is abnormal, every
      other output normal. */
  function PredictionLabel(p: int): (r: string)
    ensures r == Abnormal <==> p == 0
    ensures r == Normal <==> p != 0
  {
    if p == 0 then Abnormal else Normal
  }

  /** The list after `del records[index]` when the index is in range, and
      the list unchanged otherwise. */
  function Removed(s: seq<Record>, index: nat): (r: seq<Record>)
    ensures index < |s| ==> |r| == |s| - 1
    ensures index < |s| ==> forall k | 0 <= k < index :: r[k] == s[k]
    ensures index < |s| ==> forall k | index <= k < |r| :: r[k] == s[k + 1]
    ensures index >= |s| ==> r == s
  {
    if index < |s| then s[..index] + s[index + 1..] else s
  }

  /** The session's `selected_records` list. */
  class RecordStore {
    var records: seq<Record>

    /** A new session starts with no records. */
    constructor ()
      ensures records == []
    {
      records := [];
    }

    /** Classifies the readings with `predict`, appends the record with its
        label, and returns the label. */
    method AddRecord(input: Input, predict: Input -> int) returns (result: string)
      modifies this
      ensures result == PredictionLabel(predict(input))
      ensures records == old(records) + [Record(input, result)]
    {
      var prediction := predict(input);
      if prediction == 0 {
        result := Abnormal;
      } else {
        result := Normal;
      }
      records := records + [Record(input, result)];
    }

    /** Deletes the record at a 0-based index; an index past the end
        changes nothing. */
    method RemoveRecord(index: nat)
      modifies this
      ensures records == Removed(old(records), index)
    {
      if index < |records| {
        records := records[..index] + records[index + 1..];
      }
    }

    /** The "Reset Table" button. */
    method Reset()
      modifies this
      ensures records == []
    {
      records := [];
    }
  }

  /** Deleting the record just appended, at its position, gives back the
      list as it was. */
  lemma RemoveUndoesAdd(s: seq<Record>, x: Record)
    ensures Removed(s + [x], |s|) == s
  {
    assert (s + [x])[..|s|] == s;
  }

  /** After a reset, every deletion is a no-op. */
  lemma RemoveAfterReset(index: nat)
    ensures Removed([], index) == []
  {
  }

  /** Deleting in range removes exactly the one record at that index. */
  lemma RemovedMultiset(s: seq<Record>, index: nat)
    requires index < |s|
    ensures multiset(Removed(s, index)) + multiset{s[index]} == multiset(s)
  {
    assert s == s[..index] + [s[index]] + s[index + 1..];
  }

  /** The training labels and the displayed labels use the same convention:
      a classifier that answers with a record's recoded training label shows
      "normal" for label b'1' and "abnormal" for label b'-1'. */
  lemma LabelsAgreeWithTrainingCodes()
    ensures PredictionLabel(Dataset.Relabel(Dataset.Nominal("1")).n) == Normal
    ensures PredictionLabel(Dataset.Relabel(Dataset.Nominal("-1")).n) == Abnormal
  {
  }

  /** The page flow with a classifier that always answers 0: a submission
      adds one "abnormal" record, a stale delete position leaves the list as
      it is, and after a reset a delete is harmless. */
  method PredictionPageScenario(input: Input) returns (result: string, kept: nat, final: seq<Record>)
    ensures result == Abnormal
    ensures kept == 3
    ensures final == []
  {
    var store := new RecordStore();
    result := store.AddRecord(input, _ => 0);
    var second := store.AddRecord(input, _ => 0);
    var third := store.AddRecord(input, _ => 0);
    store.RemoveRecord(3 + 5);
    kept := |store.records|;
    store.Reset();
    store.RemoveRecord(0);
    final := store.records;
  }
}
