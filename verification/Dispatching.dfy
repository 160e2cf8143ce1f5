/** The dispatcher: which sends an alert spawns, and what one send does to the alert log. */
module Dispatching {
  import opened Types
  import opened MemoryStore

  /** How long a send waits between its two calls. */
  const RETRY_DELAY: Duration := 30 * SECOND

  /** A background send of one alert to one notifier. */
  datatype Send = Send(notifier: string, alert: AlertWithMeta)

  /** The known notifiers among the routed names; a name that occurs twice is sent to twice. */
  function Recipients(known: set<string>, names: seq<string>): seq<string> {
    if names == [] then []
    else
      var last := names[|names| - 1];
      Recipients(known, names[..|names| - 1]) + if last in known then [last] else []
  }

  function SendsFor(a: AlertWithMeta, recipients: seq<string>): seq<Send> {
    seq(|recipients|, i requires 0 <= i < |recipients| => Send(recipients[i], a))
  }

  /** The record of a finished send, before the log numbers it. */
  function RecordOf(a: AlertWithMeta, notifier: string, sentAt: Time, status: SendStatus): AlertRecord {
    AlertRecord(0, a.alert.siteName, a.alert.alertType, a.threshold, a.certSerial, sentAt, notifier, status)
  }

  /** An unknown name is skipped and the others keep their order and number: it is the known part of each part. */
  lemma {:induction false} RecipientsFilter(known: set<string>, before: seq<string>, name: string, after: seq<string>)
    ensures Recipients(known, before + [name] + after)
         == Recipients(known, before) + (if name in known then [name] else []) + Recipients(known, after)
  {
    var names := before + [name] + after;
    if after == [] {
      assert names[..|names| - 1] == before;
    } else {
      assert names[..|names| - 1] == before + [name] + after[..|after| - 1];
      RecipientsFilter(known, before, name, after[..|after| - 1]);
    }
  }

  /** When every routed name is known, nobody is skipped. */
  lemma {:induction false} NobodySkipped(known: set<string>, names: seq<string>)
    ensures Recipients(known, names) == names <==> forall n | n in names :: n in known
    ensures |Recipients(known, names)| <= |names|
  {
    if names == [] {
    } else {
      var init, last := names[..|names| - 1], names[|names| - 1];
      NobodySkipped(known, init);
      assert names == init + [last];
      if last in known {
        assert Recipients(known, names)[..|Recipients(known, names)| - 1] == Recipients(known, init);
      }
    }
  }

  class Dispatcher {
    const notifiers: set<string>
    const store: Memory
    var spawned: seq<Send>

    constructor (notifiers: set<string>, store: Memory)
      ensures this.notifiers == notifiers && this.store == store && spawned == []
    {
      this.notifiers, this.store, spawned := notifiers, store, [];
    }

    /** Starts one send for each name that is known. */
    method Dispatch(a: AlertWithMeta, names: seq<string>)
      modifies this`spawned
      ensures spawned == old(spawned) + SendsFor(a, Recipients(notifiers, names))
    {
      for i := 0 to |names|
        invariant spawned == old(spawned) + SendsFor(a, Recipients(notifiers, names[..i]))
      {
        assert names[..i + 1][..i] == names[..i];
        if names[i] !in notifiers {
          continue;
        }
        ghost var sofar := Recipients(notifiers, names[..i]);
        assert SendsFor(a, sofar + [names[i]]) == SendsFor(a, sofar) + [Send(names[i], a)];
        spawned := spawned + [Send(names[i], a)];
      }
      assert names[..|names|] == names;
    }

    /**
     One send run to its end. `first` and `second` are what the two Notify calls return,
     `cancelled` whether the context ends before the retry delay is over, and `at` what the
     clock shows when the record is made.
     */
    method SendOne(notifier: string, a: AlertWithMeta, first: bool, cancelled: bool, second: bool, at: Time)
      returns (calls: nat)
      modifies store
      ensures 1 <= calls <= 2 && (calls == 2 <==> !first && !cancelled)
      ensures store.Value() == Recorded(old(store.Value()),
                RecordOf(a, notifier, at, if first || (calls == 2 && second) then Sent else Failed))
    {
      calls := 1;
      var ok := first;
      if !ok {
        if cancelled {
          store.RecordAlert(RecordOf(a, notifier, at, Failed));
          return;
        }
        calls := 2;
        ok := second;
      }
      var status := Sent;
      if !ok {
        status := Failed;
      }
      store.RecordAlert(RecordOf(a, notifier, at, status));
    }
  }
}
