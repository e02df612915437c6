/**
 * The auto-save coordinator of hooks/useAutoSave.ts, driven by discrete
 * events at given clock times: a new `formData` object (a re-render), the
 * debounce timer firing, a retry timer firing, `saveNow`, the store
 * answering one issued update, and unmounting.
 *
 * `saveData` is split at its one `await`: starting a save (skip rule,
 * 'saving', the update sent to the store) and the store's answer ('saved'
 * and the new last-saved snapshot, or 'error' and a retry in 5 s). Several
 * updates can therefore be in flight at once, as in the hook.
 */
module AutoSave {
  import opened Wrappers
  import opened JsValue
  import opened Cases

  const DefaultDebounceMs: nat := 2000
  const RetryDelayMs: nat := 5000

  datatype SaveStatus = Saving | Saved | Error

  /** The update written to the case row. */
  datatype CaseUpdate = CaseUpdate(formData: Record, completionPercentage: int, updatedAt: int)

  /** A pending timer and the form data its callback saves. */
  datatype Timer = Timer(deadline: int, data: Record)

  /** An update sent to the store and not answered yet, with the snapshot it would record. */
  datatype PendingWrite = PendingWrite(update: CaseUpdate, snapshot: string)

  /** The hook counts a value unless it is null, undefined or `''` (the string 'null' counts). */
  predicate IsFilled(v: Value) {
    v != Null && v != Undefined && v != Str("")
  }

  function CountFilled(r: Record): (n: nat)
    ensures n <= |r|
  {
    if r == [] then 0 else (if IsFilled(r[0].val) then 1 else 0) + CountFilled(r[1..])
  }

  /**
   * The hook's count differs from `calculateCompletionPercentage`'s only by
   * the values that are the string 'null': it is never smaller, and equal
   * exactly when no value is that string.
   */
  lemma {:induction false} CountFilledCoversAnswered(r: Record)
    ensures CountAnswered(r) <= CountFilled(r)
    ensures CountAnswered(r) == CountFilled(r) <==> forall i :: 0 <= i < |r| ==> r[i].val != Str("null")
    decreases |r|
  {
    if r != [] {
      CountFilledCoversAnswered(r[1..]);
      assert forall i :: 1 <= i < |r| ==> r[i] == r[1..][i - 1];
    }
  }

  /** The completion percentage the hook writes along with the data. */
  function SavePercentage(data: Record): (p: nat)
    ensures p <= 100
    ensures CountFilled(data) >= TotalFields ==> p == 100
  {
    CappedPercent(CountFilled(data))
  }

  /** For data without the string 'null', the hook agrees with `calculateCompletionPercentage`. */
  lemma SavePercentageAgrees(data: Record)
    requires data != []
    requires forall i :: 0 <= i < |data| ==> data[i].val != Str("null")
    ensures SavePercentage(data) == CompletionPercentage(Some(data))
  {
    CountFilledCoversAnswered(data);
  }

  /** The update `saveData(data)` issues at time `now`. */
  function UpdateFor(data: Record, now: int): (u: CaseUpdate)
    ensures u.formData == data && u.updatedAt == now
    ensures u.completionPercentage == SavePercentage(data)
    ensures WellFormed(u) || data == []
  {
    CaseUpdate(data, SavePercentage(data), now)
  }

  /** A written update carries a non-empty record and the percentage derived from it. */
  predicate WellFormed(u: CaseUpdate) {
    u.formData != [] && u.completionPercentage == SavePercentage(u.formData)
  }

  /** The skip rule: no keys, or the same serialisation as the last saved one. */
  predicate Skips(data: Record, lastSaved: string) {
    data == [] || JsonRecord(data) == lastSaved
  }

  class AutoSaver {
    const debounceMs: nat
    var now: int
    var formData: Record
    /** `timeoutRef`: the one debounce timer, if armed. */
    var timer: Option<Timer>
    /** `lastSavedDataRef`: the serialisation of the last successfully saved data. */
    var lastSaved: string
    /** Retry timers; the hook never clears them. */
    var retries: seq<Timer>
    var inFlight: seq<PendingWrite>
    /** The calls of `onStatusChange`, in order. */
    var statuses: seq<SaveStatus>
    /** Every update sent to the store, in order. */
    var sent: seq<CaseUpdate>
    /** The last update the store confirmed. */
    var stored: Option<CaseUpdate>

    ghost predicate Valid()
      reads this
    {
      && (timer.Some? ==> timer.value.data == formData && now <= timer.value.deadline)
      && (forall k :: 0 <= k < |retries| ==> now <= retries[k].deadline)
      && (forall k :: 0 <= k < |inFlight| ==>
            WellFormed(inFlight[k].update) && inFlight[k].snapshot == JsonRecord(inFlight[k].update.formData))
      && (forall k :: 0 <= k < |sent| ==> WellFormed(sent[k]))
      && (stored.Some? ==> WellFormed(stored.value))
      && lastSaved == (if stored.Some? then JsonRecord(stored.value.formData) else "")
    }

    /** No timer is due before time `t`, so an event may happen at `t`. */
    ghost predicate QuietUntil(t: int)
      reads this
    {
      && now <= t
      && (timer.Some? ==> t <= timer.value.deadline)
      && (forall k :: 0 <= k < |retries| ==> t <= retries[k].deadline)
    }

    /** Mounting the hook: the effect runs once and arms the debounce timer. */
    constructor (data: Record, debounceMs: nat, t: int)
      ensures Valid()
      ensures this.debounceMs == debounceMs && now == t && formData == data
      ensures timer == Some(Timer(t + debounceMs, data))
      ensures lastSaved == "" && retries == [] && inFlight == [] && statuses == [] && sent == [] && stored == None
    {
      this.debounceMs := debounceMs;
      now := t;
      formData := data;
      timer := Some(Timer(t + debounceMs, data));
      lastSaved := "";
      retries := [];
      inFlight := [];
      statuses := [];
      sent := [];
      stored := None;
    }

    /** The synchronous part of `saveData`, up to the awaited update. */
    method StartSave(data: Record)
      requires Valid()
      modifies this`statuses, this`inFlight, this`sent
      ensures Valid()
      ensures Skips(data, lastSaved) ==> statuses == old(statuses) && inFlight == old(inFlight) && sent == old(sent)
      ensures !Skips(data, lastSaved) ==>
        && statuses == old(statuses) + [Saving]
        && inFlight == old(inFlight) + [PendingWrite(UpdateFor(data, now), JsonRecord(data))]
        && sent == old(sent) + [UpdateFor(data, now)]
    {
      var snapshot := JsonRecord(data);
      if data == [] || snapshot == lastSaved {
        return;
      }
      statuses := statuses + [Saving];
      var update := CaseUpdate(data, SavePercentage(data), now);
      inFlight := inFlight + [PendingWrite(update, snapshot)];
      sent := sent + [update];
    }

    /** A new `formData` object: clear the pending debounce timer and arm one new timer. */
    method Render(data: Record, t: int)
      requires Valid() && QuietUntil(t)
      modifies this
      ensures Valid()
      ensures now == t && formData == data
      ensures timer == Some(Timer(t + debounceMs, data))
      ensures lastSaved == old(lastSaved) && retries == old(retries) && inFlight == old(inFlight)
      ensures statuses == old(statuses) && sent == old(sent) && stored == old(stored)
    {
      now := t;
      formData := data;
      timer := Some(Timer(t + debounceMs, data));
    }

    /** The debounce timer fires and saves the form data it was armed with. */
    method DebounceFires()
      requires Valid() && timer.Some? && QuietUntil(timer.value.deadline)
      modifies this
      ensures Valid()
      ensures now == old(timer.value.deadline) && timer == None
      ensures formData == old(formData) && lastSaved == old(lastSaved) && retries == old(retries) && stored == old(stored)
      ensures Skips(old(formData), lastSaved) ==> statuses == old(statuses) && inFlight == old(inFlight) && sent == old(sent)
      ensures !Skips(old(formData), lastSaved) ==>
        && statuses == old(statuses) + [Saving]
        && inFlight == old(inFlight) + [PendingWrite(UpdateFor(formData, now), JsonRecord(formData))]
        && sent == old(sent) + [UpdateFor(formData, now)]
    {
      var fired := timer.value;
      now := fired.deadline;
      timer := None;
      StartSave(fired.data);
    }

    /** `saveNow`: clear the pending debounce timer and save the current form data at once. */
    method SaveNow(t: int)
      requires Valid() && QuietUntil(t)
      modifies this
      ensures Valid()
      ensures now == t && timer == None
      ensures formData == old(formData) && lastSaved == old(lastSaved) && retries == old(retries) && stored == old(stored)
      ensures Skips(formData, lastSaved) ==> statuses == old(statuses) && inFlight == old(inFlight) && sent == old(sent)
      ensures !Skips(formData, lastSaved) ==>
        && statuses == old(statuses) + [Saving]
        && inFlight == old(inFlight) + [PendingWrite(UpdateFor(formData, t), JsonRecord(formData))]
        && sent == old(sent) + [UpdateFor(formData, t)]
    {
      now := t;
      timer := None;
      StartSave(formData);
    }

    /** Retry timer `k` fires and saves the data whose write failed. */
    method RetryFires(k: nat)
      requires Valid() && k < |retries| && QuietUntil(retries[k].deadline)
      modifies this
      ensures Valid()
      ensures now == old(retries[k].deadline)
      ensures retries == old(retries[..k] + retries[k + 1..])
      ensures formData == old(formData) && timer == old(timer) && lastSaved == old(lastSaved) && stored == old(stored)
      ensures var data := old(retries[k].data);
        && (Skips(data, lastSaved) ==> statuses == old(statuses) && inFlight == old(inFlight) && sent == old(sent))
        && (!Skips(data, lastSaved) ==>
              && statuses == old(statuses) + [Saving]
              && inFlight == old(inFlight) + [PendingWrite(UpdateFor(data, now), JsonRecord(data))]
              && sent == old(sent) + [UpdateFor(data, now)])
    {
      var fired := retries[k];
      now := fired.deadline;
      retries := retries[..k] + retries[k + 1..];
      StartSave(fired.data);
    }

    /**
     * The store answers pending update `k` at time `t`. On success the snapshot
     * becomes the last saved one and 'saved' is reported; on failure the last
     * saved snapshot stays, 'error' is reported and a retry of the same data is
     * armed 5 s later.
     */
    method Settle(k: nat, ok: bool, t: int)
      requires Valid() && k < |inFlight| && QuietUntil(t)
      modifies this
      ensures Valid()
      ensures now == t && inFlight == old(inFlight[..k] + inFlight[k + 1..])
      ensures formData == old(formData) && timer == old(timer) && sent == old(sent)
      ensures ok ==>
        && lastSaved == old(inFlight[k].snapshot)
        && stored == Some(old(inFlight[k].update))
        && statuses == old(statuses) + [Saved]
        && retries == old(retries)
      ensures !ok ==>
        && lastSaved == old(lastSaved)
        && stored == old(stored)
        && statuses == old(statuses) + [Error]
        && retries == old(retries) + [Timer(t + RetryDelayMs, old(inFlight[k].update.formData))]
    {
      var w := inFlight[k];
      now := t;
      inFlight := inFlight[..k] + inFlight[k + 1..];
      if ok {
        lastSaved := w.snapshot;
        stored := Some(w.update);
        statuses := statuses + [Saved];
      } else {
        statuses := statuses + [Error];
        retries := retries + [Timer(t + RetryDelayMs, w.update.formData)];
      }
    }

    /** Unmounting runs the effect's cleanup: the debounce timer is cleared, retries are not. */
    method Unmount()
      requires Valid()
      modifies this`timer
      ensures Valid() && timer == None
    {
      timer := None;
    }
  }

  // ------------------------------------------------------------- scenarios

  /**
   * Edits closer together than the debounce interval are coalesced: mounting
   * with `d1`, then `d2` and `d3`, each before the previous timer is due,
   * writes once, the latest data, one interval after the last edit.
   */
  method BurstIsCoalesced(d1: Record, d2: Record, d3: Record, t1: int, t2: int, t3: int, debounceMs: nat)
    returns (sent: seq<CaseUpdate>, statuses: seq<SaveStatus>)
    requires t1 <= t2 <= t1 + debounceMs && t2 <= t3 <= t2 + debounceMs
    requires d3 != []
    ensures sent == [CaseUpdate(d3, SavePercentage(d3), t3 + debounceMs)]
    ensures statuses == [Saving]
  {
    hide AutoSaver.Valid, WellFormed, JsonRecord, Json, SavePercentage, CountFilled;
    var saver := new AutoSaver(d1, debounceMs, t1);
    saver.Render(d2, t2);
    saver.Render(d3, t3);
    saver.DebounceFires();
    sent, statuses := saver.sent, saver.statuses;
  }

  /** One failed attempt: the store rejects the only pending update, and its retry fires 5 s later. */
  method FailThenRetry(saver: AutoSaver, data: Record)
    requires saver.Valid() && saver.timer == None && saver.retries == [] && saver.stored == None
    requires saver.inFlight == [PendingWrite(UpdateFor(data, saver.now), JsonRecord(data))]
    modifies saver
    ensures saver.Valid() && saver.timer == None && saver.retries == [] && saver.stored == None
    ensures saver.now == old(saver.now) + RetryDelayMs
    ensures saver.inFlight == [PendingWrite(UpdateFor(data, saver.now), JsonRecord(data))]
    ensures saver.statuses == old(saver.statuses) + [Error, Saving]
    ensures saver.sent == old(saver.sent) + [UpdateFor(data, saver.now)]
  {
    saver.Settle(0, false, saver.now);
    assert saver.lastSaved == "" && saver.inFlight == [];
    saver.RetryFires(0);
  }

  /** A fresh saver whose debounce has fired: one write of `data` in flight, nothing stored yet. */
  method FirstAttempt(data: Record, t: int, debounceMs: nat) returns (saver: AutoSaver)
    requires data != []
    ensures fresh(saver) && saver.Valid()
    ensures saver.timer == None && saver.retries == [] && saver.stored == None
    ensures saver.now == t + debounceMs
    ensures saver.inFlight == [PendingWrite(UpdateFor(data, saver.now), JsonRecord(data))]
    ensures saver.statuses == [Saving] && |saver.sent| == 1 && saver.sent[0].formData == data
  {
    saver := new AutoSaver(data, debounceMs, t);
    saver.DebounceFires();
  }

  /**
   * A write that fails twice and then succeeds: the status sequence is
   * saving, error, saving, error, saving, saved; the store ends with the data,
   * written by the third attempt, 10 s after the first.
   */
  method RetryConverges(data: Record, t: int, debounceMs: nat)
    returns (statuses: seq<SaveStatus>, sent: seq<CaseUpdate>, stored: Option<CaseUpdate>)
    requires data != []
    ensures statuses == [Saving, Error, Saving, Error, Saving, Saved]
    ensures |sent| == 3 && forall k :: 0 <= k < 3 ==> sent[k].formData == data
    ensures stored == Some(CaseUpdate(data, SavePercentage(data), t + debounceMs + 2 * RetryDelayMs))
  {
    hide AutoSaver.Valid, WellFormed, JsonRecord, Json, SavePercentage, CountFilled;
    var saver := FirstAttempt(data, t, debounceMs);
    ghost var first := saver.sent[0];
    FailThenRetry(saver, data);
    ghost var second := UpdateFor(data, saver.now);
    assert saver.sent == [first, second];
    FailThenRetry(saver, data);
    ghost var third := UpdateFor(data, saver.now);
    assert saver.sent == [first, second, third];
    assert saver.now == t + debounceMs + 2 * RetryDelayMs;
    assert saver.statuses == [Saving, Error, Saving, Error, Saving];
    saver.Settle(0, true, saver.now);
    assert saver.stored == Some(third);
    statuses, sent, stored := saver.statuses, saver.sent, saver.stored;
  }

  /** Once data is saved, saving the same data again issues no second update and reports nothing. */
  method UnchangedDataIsSavedOnce(data: Record, t: int, debounceMs: nat, later: nat)
    returns (statuses: seq<SaveStatus>, sent: seq<CaseUpdate>)
    requires data != []
    ensures statuses == [Saving, Saved]
    ensures sent == [CaseUpdate(data, SavePercentage(data), t + debounceMs)]
  {
    hide AutoSaver.Valid, WellFormed, JsonRecord, Json, SavePercentage, CountFilled;
    var saver := new AutoSaver(data, debounceMs, t);
    saver.DebounceFires();
    saver.Settle(0, true, saver.now);
    saver.SaveNow(saver.now + later);
    statuses, sent := saver.statuses, saver.sent;
  }

  /**
   * The skip rule compares with the last confirmed snapshot only: `saveNow`
   * twice before the store answers puts two identical updates in flight.
   */
  method OverlappingWrites(data: Record, t: int, debounceMs: nat)
    returns (inFlight: seq<PendingWrite>)
    requires data != []
    ensures |inFlight| == 2 && inFlight[0] == inFlight[1]
  {
    hide AutoSaver.Valid, WellFormed, JsonRecord, Json, SavePercentage, CountFilled;
    var saver := new AutoSaver(data, debounceMs, t);
    saver.SaveNow(t);
    saver.SaveNow(t);
    inFlight := saver.inFlight;
  }
}
