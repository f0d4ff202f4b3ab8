/** The content provider of the VCS log tab: it owns at most one main log
    UI, creates it when the project's log is created, disposes it when the
    log is disposed, and runs a consumer on the UI now or once it exists.
    Every operation runs on the UI thread, so they are sequential here. UIs
    are numbered in the order the log manager creates them; the Swing
    container, data providers and message-bus wiring are not modelled. */
module VcsLogContent {
  import opened Text

  /** The n-th main UI created by the log manager. */
  type UiId = nat

  /** A consumer handed to `executeOnMainUiCreated`, by identity. */
  type ConsumerId = nat

  class ContentProvider {
    /** `myUi` */
    var ui: Option<UiId>
    /** `myOnCreatedListener` */
    var onCreatedListener: Option<ConsumerId>
    /** How many UIs have been created so far. */
    var createdCount: nat
    /** UIs handed to `Disposer.dispose`, in order. */
    var disposed: seq<UiId>
    /** Consumer calls, in order: which consumer ran with which UI. */
    var consumed: seq<(ConsumerId, UiId)>

    /** A live UI is the last one created and no consumer waits while it
        exists; every other UI created so far was disposed exactly once; a
        consumer only ever ran with a UI that had been created. */
    ghost predicate Valid()
      reads this
    {
      && (ui.Some? ==> ui.value + 1 == createdCount && onCreatedListener.None?)
      && (forall u :: 0 <= u < createdCount ==> (u in disposed <==> ui != Some(u)))
      && (forall k :: 0 <= k < |disposed| ==> disposed[k] < createdCount)
      && (forall k, l :: 0 <= k < l < |disposed| ==> disposed[k] != disposed[l])
      && (forall k :: 0 <= k < |consumed| ==> consumed[k].1 < createdCount)
    }

    /** The constructor subscribes to log events and, when the project's log
        manager already exists, creates the UI at once. */
    constructor (logManagerExists: bool)
      ensures Valid()
      ensures ui == (if logManagerExists then Some(0) else None)
      ensures createdCount == (if logManagerExists then 1 else 0)
      ensures onCreatedListener == None && disposed == [] && consumed == []
    {
      ui := None;
      onCreatedListener := None;
      createdCount := 0;
      disposed := [];
      consumed := [];
      new;
      if logManagerExists {
        AddMainUi();
      }
    }

    /** `getUi()`: the live UI, if any; it is never one that was disposed. */
    function GetUi(): (r: Option<UiId>)
      requires Valid()
      reads this
      ensures r == ui
      ensures r.Some? ==> r.value < createdCount && r.value !in disposed
    {
      ui
    }

    /** `addMainUi(logManager)`: creates a UI only when there is none, hands
        it to the waiting consumer if there is one, and forgets that consumer. */
    method AddMainUi()
      requires Valid()
      modifies this
      ensures Valid()
      ensures old(ui).Some? ==> unchanged(this)
      ensures old(ui).None? ==>
                && ui == Some(old(createdCount))
                && createdCount == old(createdCount) + 1
                && onCreatedListener == None
                && disposed == old(disposed)
                && consumed == old(consumed) + (match old(onCreatedListener)
                                                case Some(c) => [(c, old(createdCount))]
                                                case None => [])
    {
      if ui == None {
        var created := createdCount;
        ui := Some(created);
        createdCount := createdCount + 1;
        if onCreatedListener.Some? {
          consumed := consumed + [(onCreatedListener.value, created)];
        }
        onCreatedListener := None;
      }
    }

    /** `disposeMainUi()`: forgets the waiting consumer, and disposes the
        live UI, if any, after clearing the field. */
    method DisposeMainUi()
      requires Valid()
      modifies this
      ensures Valid()
      ensures ui == None && onCreatedListener == None
      ensures disposed == old(disposed) + (match old(ui) case Some(u) => [u] case None => [])
      ensures createdCount == old(createdCount) && consumed == old(consumed)
    {
      onCreatedListener := None;
      if ui.Some? {
        var live := ui.value;
        ui := None;
        disposed := disposed + [live];
      }
    }

    /** `executeOnMainUiCreated(consumer)`: runs the consumer with the live
        UI, or stores it in place of any consumer stored before. */
    method ExecuteOnMainUiCreated(consumer: ConsumerId)
      requires Valid()
      modifies this
      ensures Valid()
      ensures old(ui).None? ==> onCreatedListener == Some(consumer) && consumed == old(consumed)
      ensures old(ui).Some? ==>
                onCreatedListener == None && consumed == old(consumed) + [(consumer, old(ui).value)]
      ensures ui == old(ui) && createdCount == old(createdCount) && disposed == old(disposed)
    {
      if ui == None {
        onCreatedListener := Some(consumer);
      } else {
        consumed := consumed + [(consumer, ui.value)];
      }
    }

    /** The "log created" event of the project log. */
    method LogCreated()
      requires Valid()
      modifies this
      ensures Valid()
      ensures old(ui).Some? ==> unchanged(this)
      ensures old(ui).None? ==>
                && ui == Some(old(createdCount))
                && createdCount == old(createdCount) + 1
                && onCreatedListener == None
                && disposed == old(disposed)
                && consumed == old(consumed) + (match old(onCreatedListener)
                                                case Some(c) => [(c, old(createdCount))]
                                                case None => [])
    {
      AddMainUi();
    }

    /** The "log disposed" event of the project log. */
    method LogDisposed()
      requires Valid()
      modifies this
      ensures Valid()
      ensures ui == None && onCreatedListener == None
      ensures disposed == old(disposed) + (match old(ui) case Some(u) => [u] case None => [])
      ensures createdCount == old(createdCount) && consumed == old(consumed)
    {
      DisposeMainUi();
    }

    /** `disposeContent()` of the content provider interface. */
    method DisposeContent()
      requires Valid()
      modifies this
      ensures Valid()
      ensures ui == None && onCreatedListener == None
      ensures disposed == old(disposed) + (match old(ui) case Some(u) => [u] case None => [])
      ensures createdCount == old(createdCount) && consumed == old(consumed)
    {
      DisposeMainUi();
    }
  }

  /** Two consumers registered before the log exists: only the second runs,
      once, with the UI the "log created" event makes. */
  method OnlyLastDeferredConsumerRuns(first: ConsumerId, second: ConsumerId) returns (runs: seq<(ConsumerId, UiId)>)
    ensures runs == [(second, 0)]
  {
    var provider := new ContentProvider(false);
    provider.ExecuteOnMainUiCreated(first);
    provider.ExecuteOnMainUiCreated(second);
    provider.LogCreated();
    provider.LogCreated();
    runs := provider.consumed;
  }

  /** With a log manager present at construction, a consumer runs at once
      and nothing is left waiting. */
  method ConsumerRunsAtOnceWhenUiExists(consumer: ConsumerId) returns (runs: seq<(ConsumerId, UiId)>, waiting: Option<ConsumerId>)
    ensures runs == [(consumer, 0)] && waiting == None
  {
    var provider := new ContentProvider(true);
    provider.ExecuteOnMainUiCreated(consumer);
    runs, waiting := provider.consumed, provider.onCreatedListener;
  }

  /** A second "log created" keeps the UI; "log disposed" disposes it once;
      disposing again does nothing; the next "log created" makes a new UI. */
  method RecreateAfterDispose() returns (kept: Option<UiId>, recreated: Option<UiId>, disposedUis: seq<UiId>)
    ensures kept == Some(0) && recreated == Some(1) && disposedUis == [0]
  {
    var provider := new ContentProvider(false);
    provider.LogCreated();
    provider.LogCreated();
    kept := provider.GetUi();
    provider.LogDisposed();
    provider.DisposeContent();
    provider.LogCreated();
    recreated := provider.GetUi();
    disposedUis := provider.disposed;
  }
}
