/**
 The condition `created` of an MLService. It is set on the cached object before it is written, so
 the object can show what was never stored.
 */
module ConditionRecords {
  import opened Conditions

  /** The condition as stored, and as the object handed to the handler shows it. */
  datatype Created = Created(stored: Condition, copy: Condition)

  function Wanted(c: Condition, isTrue: bool, message: string): Condition {
    if isTrue then c.(status := Yes) else c.(status := No, message := message)
  }

  /** The condition is written only when setting it changed the object. */
  function SetCreated(c: Created, isTrue: bool, message: string, up: bool): Created {
    var copy' := Wanted(c.copy, isTrue, message);
    Created(if copy' != c.copy && up then copy' else c.stored, copy')
  }

  /** The error of the write. */
  predicate SetCreatedFails(c: Created, isTrue: bool, message: string, up: bool) {
    Wanted(c.copy, isTrue, message) != c.copy && !up
  }

  // ----- One call -----

  /**
   That no error means stored can be relied on exactly when the object does not already show the
   wanted condition without its being stored.
   */
  lemma SuccessMeansStoredIff(c: Created, isTrue: bool, message: string, up: bool)
    ensures var wanted := Wanted(c.copy, isTrue, message);
      (!SetCreatedFails(c, isTrue, message, up) ==> SetCreated(c, isTrue, message, up).stored == wanted)
      <==> (wanted == c.copy ==> c.stored == c.copy)
  {
  }

  // ----- Runs of calls on one object -----

  datatype Record = Record(isTrue: bool, message: string, up: bool)

  function SetAll(c: Created, records: seq<Record>): Created {
    if records == [] then c
    else
      var n := |records| - 1;
      SetCreated(SetAll(c, records[..n]), records[n].isTrue, records[n].message, records[n].up)
  }

  /** What the object shows in the end; the writes play no part in it. */
  function Shown(c: Condition, records: seq<Record>): Condition {
    if records == [] then c
    else
      var n := |records| - 1;
      Wanted(Shown(c, records[..n]), records[n].isTrue, records[n].message)
  }

  /** How many calls there are up to the last one that changed the object, zero when none did. */
  function LastChange(c: Condition, records: seq<Record>): (n: nat)
    ensures n <= |records|
  {
    if records == [] then 0
    else
      var n := |records| - 1;
      if Shown(c, records) != Shown(c, records[..n]) then n + 1 else LastChange(c, records[..n])
  }

  /** How many calls there are up to the last one that changed the object and reached the server. */
  function LastWrite(c: Condition, records: seq<Record>): (n: nat)
    ensures n <= |records|
  {
    if records == [] then 0
    else
      var n := |records| - 1;
      if Shown(c, records) != Shown(c, records[..n]) && records[n].up then n + 1 else LastWrite(c, records[..n])
  }

  /** What the object showed after that call. */
  function Written(c: Created, records: seq<Record>): Condition {
    var n := LastWrite(c.copy, records);
    if n == 0 then c.stored else Shown(c.copy, records[..n])
  }

  /** What is stored in the end is what the object showed after the last change that reached the server. */
  lemma {:induction false} StoredIsLastWrite(c: Created, records: seq<Record>)
    ensures SetAll(c, records) == Created(Written(c, records), Shown(c.copy, records))
  {
    if records == [] {
    } else {
      var init := records[..|records| - 1];
      StoredIsLastWrite(c, init);
      assert forall n :: 0 <= n <= |init| ==> init[..n] == records[..n];
      assert records[..|records|] == records;
    }
  }

  /**
   Over every run the object shows what is stored exactly when the last call that changed it
   reached the server or wanted what was stored; when none changed it, exactly when it did before.
   */
  lemma {:induction false} RunAgreesIff(c: Created, records: seq<Record>)
    ensures var r, n := SetAll(c, records), LastChange(c.copy, records);
      r.stored == r.copy <==>
        if n == 0 then c.stored == c.copy
        else records[n - 1].up || Written(c, records[..n - 1]) == Shown(c.copy, records[..n])
  {
    StoredIsLastWrite(c, records);
    if records == [] {
    } else {
      var m := |records| - 1;
      StoredIsLastWrite(c, records[..m]);
      if Shown(c.copy, records) == Shown(c.copy, records[..m]) {
        RunAgreesIff(c, records[..m]);
        var n := LastChange(c.copy, records);
        assert n > 0 ==> records[..m][..n] == records[..n] && records[..m][..n - 1] == records[..n - 1];
      } else {
        assert records[..m + 1] == records;
      }
    }
  }

  // ----- Retries of one record -----

  function Retries(isTrue: bool, message: string, ups: seq<bool>): seq<Record> {
    seq(|ups|, i requires 0 <= i < |ups| => Record(isTrue, message, ups[i]))
  }

  /**
   However often a call is retried on an object that showed what was stored: the condition ends up
   stored exactly when it was so before or the very first write arrived.
   */
  lemma {:induction false} RetriesStoreIff(c: Condition, isTrue: bool, message: string, ups: seq<bool>)
    requires ups != []
    ensures var r, wanted := SetAll(Created(c, c), Retries(isTrue, message, ups)), Wanted(c, isTrue, message);
      && r.copy == wanted
      && r.stored == (if ups[0] then wanted else c)
      && (r.stored == wanted <==> wanted == c || ups[0])
  {
    var m := |ups| - 1;
    var records := Retries(isTrue, message, ups);
    assert records[..m] == Retries(isTrue, message, ups[..m]);
    if m == 0 {
      assert SetAll(Created(c, c), records[..m]) == Created(c, c);
    } else {
      RetriesStoreIff(c, isTrue, message, ups[..m]);
    }
  }

  /** The retry reports success and writes nothing, and so does every later one. */
  lemma FailedRecordIsLost(c: Created, isTrue: bool, message: string, up: bool)
    requires SetCreatedFails(c, isTrue, message, false)
    ensures var failed := SetCreated(c, isTrue, message, false);
      && !SetCreatedFails(failed, isTrue, message, up)
      && SetCreated(failed, isTrue, message, up) == failed
      && failed.stored == c.stored && failed.copy != c.copy
  {
  }

  /** Records of different messages may make up for it: two lost writes, the second back to the old message, cancel. */
  lemma LostWritesMayCancel(c: Condition, message: string)
    requires c.status == No && message != c.message
    ensures var r := SetAll(Created(c, c), [Record(false, message, false), Record(false, c.message, false)]);
      r.stored == r.copy == c
  {
    var first, both := Record(false, message, false), [Record(false, message, false), Record(false, c.message, false)];
    assert both[..1] == [first] && [first][..0] == [];
    assert SetAll(Created(c, c), [first]) == Created(c, Wanted(c, false, message));
  }
}
