/**
 * The log page: it seeds its list from the shared log stream reader,
 * subscribes a `data` handler that appends each batch stamped with its
 * receipt time, unsubscribes that same handler on unmount, and after every
 * layout applies the scroll-anchoring rule to the list element.
 *
 * Lists are arrays, as in the page: `handleLog` builds a new array, so an
 * array handed out earlier (the render state, or the reader's own buffer,
 * which the first list aliases) is never written.
 */
module LogsView {
  import opened ScrollAnchor

  /** A receipt time in milliseconds. */
  type Time = int

  datatype Log = Log(typ: string, payload: string, time: Time)

  /**
   * `newLogs.map(d => ({ ...d, time: new Date() }))`: each entry as it came,
   * with the time the clock read when that entry was mapped; `times[i]` is
   * the reading for entry `i`.
   */
  function Stamped(batch: seq<Log>, times: seq<Time>): (r: seq<Log>)
    requires |times| == |batch|
    ensures |r| == |batch|
    ensures forall i :: 0 <= i < |batch| ==> r[i] == batch[i].(time := times[i])
  {
    if batch == [] then [] else [batch[0].(time := times[0])] + Stamped(batch[1..], times[1..])
  }

  /** Stamping two batches one after the other gives the entries of stamping their concatenation. */
  lemma StampedAppend(a: seq<Log>, ta: seq<Time>, b: seq<Log>, tb: seq<Time>)
    requires |ta| == |a| && |tb| == |b|
    ensures Stamped(a + b, ta + tb) == Stamped(a, ta) + Stamped(b, tb)
  {
    assert forall i :: 0 <= i < |a| ==> (a + b)[i] == a[i] && (ta + tb)[i] == ta[i];
    assert forall i :: |a| <= i < |a| + |b| ==> (a + b)[i] == b[i - |a|] && (ta + tb)[i] == tb[i - |a|];
  }

  /** A subscribed callback; like a JavaScript function, it is compared by reference. */
  class Handler {
    constructor ()
    {
    }
  }

  /** The shared log stream reader, seen from outside: a buffer and the `data` listeners. */
  class LogsStreamReader {
    const buffer: array<Log>
    var listeners: set<Handler>

    constructor (history: seq<Log>)
      ensures fresh(buffer) && buffer[..] == history && listeners == {}
    {
      buffer := new Log[|history|](i requires 0 <= i < |history| => history[i]);
      listeners := {};
    }

    method Subscribe(h: Handler)
      modifies this
      ensures listeners == old(listeners) + {h}
    {
      listeners := listeners + {h};
    }

    /** Removing a handler that is not subscribed changes nothing. */
    method Unsubscribe(h: Handler)
      modifies this
      ensures listeners == old(listeners) - {h}
    {
      listeners := listeners - {h};
    }
  }

  /** The `<ul>` element of the list, as far as the layout effect uses it. */
  class ListElement {
    var scrollTop: int
    var clientHeight: int
    var scrollHeight: int

    constructor (scrollTop: int, clientHeight: int, scrollHeight: int)
      ensures Measure() == Geometry(scrollTop, clientHeight, scrollHeight)
    {
      this.scrollTop := scrollTop;
      this.clientHeight := clientHeight;
      this.scrollHeight := scrollHeight;
    }

    function Measure(): (r: Geometry)
      reads this
    {
      Geometry(scrollTop, clientHeight, scrollHeight)
    }
  }

  /** One mounted log page. */
  class LogsView {
    const reader: LogsStreamReader?   // what `useLogsStreamReader()` returned
    var logs: array<Log>              // `logsRef.current`
    var shown: array<Log>             // the render state set by `setLogs`
    var recordedHeight: int           // `scrollHeightRef.current`
    var handler: Handler?             // `handleLog` of the effect run, once it has run

    /** The handler of this page is currently registered with the reader. */
    predicate Subscribed()
      reads this, reader
    {
      reader != null && handler != null && handler in reader.listeners
    }

    /** First render: both lists empty, and the height recorded from the list element if it exists yet. */
    constructor (reader: LogsStreamReader?, list: ListElement?)
      ensures this.reader == reader && handler == null
      ensures fresh(logs) && fresh(shown) && logs[..] == [] && shown[..] == []
      ensures recordedHeight == if list == null then 0 else list.scrollHeight
    {
      this.reader := reader;
      logs := new Log[0];
      shown := new Log[0];
      recordedHeight := if list == null then 0 else list.scrollHeight;
      handler := null;
    }

    /** `handleLog(batch)`: a new list holding the old entries followed by the stamped batch. */
    method HandleLog(batch: seq<Log>, times: seq<Time>)
      requires |times| == |batch|
      modifies this
      ensures fresh(logs) && shown == logs
      ensures logs[..] == old(logs[..]) + Stamped(batch, times)
      ensures old(logs)[..] == old(logs[..]) && old(shown)[..] == old(shown[..])
      ensures reader != null ==> reader.buffer[..] == old(reader.buffer[..])
      ensures handler == old(handler) && recordedHeight == old(recordedHeight)
    {
      var current := logs;
      var n := current.Length;
      var next := new Log[n + |batch|];
      var i := 0;
      while i < n
        modifies next
        invariant 0 <= i <= n
        invariant forall k :: 0 <= k < i ==> next[k] == current[k]
      {
        next[i] := current[i];
        i := i + 1;
      }
      var j := 0;
      while j < |batch|
        modifies next
        invariant 0 <= j <= |batch|
        invariant forall k :: 0 <= k < n ==> next[k] == current[k]
        invariant forall k :: 0 <= k < j ==> next[n + k] == batch[k].(time := times[k])
      {
        next[n + j] := batch[j].(time := times[j]);
        j := j + 1;
      }
      assert next[..] == current[..] + Stamped(batch, times);
      logs := next;
      shown := next;
    }

    /** The mount effect: subscribe a new handler, then take the reader's buffer as the list. */
    method Attach()
      requires handler == null
      modifies this, reader
      ensures fresh(handler)
      ensures reader != null ==> reader.listeners == old(reader.listeners) + {handler}
      ensures reader != null ==> logs == reader.buffer && shown == reader.buffer
      ensures reader == null ==> logs == old(logs) && shown == old(shown)
      ensures recordedHeight == old(recordedHeight)
      ensures Subscribed() <==> reader != null
    {
      var h := new Handler();
      handler := h;
      if reader != null {
        reader.Subscribe(h);
        logs := reader.buffer;
        shown := logs;
      }
    }

    /** The effect's cleanup: unsubscribe exactly the handler the effect subscribed. */
    method Detach()
      requires handler != null
      modifies reader
      ensures reader != null ==> reader.listeners == old(reader.listeners) - {handler}
      ensures !Subscribed()
    {
      if reader != null {
        reader.Unsubscribe(handler);
      }
    }

    /** The reader dispatching a `data` batch: this page's handler runs only while it is subscribed. */
    method Deliver(batch: seq<Log>, times: seq<Time>)
      requires |times| == |batch|
      modifies this
      ensures old(Subscribed()) ==> fresh(logs) && logs[..] == old(logs[..]) + Stamped(batch, times) && shown == logs
      ensures !old(Subscribed()) ==> logs == old(logs) && shown == old(shown)
      ensures old(logs)[..] == old(logs[..])
      ensures handler == old(handler) && recordedHeight == old(recordedHeight)
    {
      if Subscribed() {
        HandleLog(batch, times);
      }
    }

    /**
     * The layout effect: with a list element, pin it to the bottom when the
     * recorded height equals `scrollTop + clientHeight`; then record its
     * scroll height, or 0 without an element.
     */
    method Layout(list: ListElement?)
      modifies this, list
      ensures list != null ==> list.Measure() == Anchor(old(recordedHeight), old(list.Measure()))
      ensures recordedHeight == if list == null then 0 else list.scrollHeight
      ensures logs == old(logs) && shown == old(shown) && handler == old(handler)
    {
      if list != null && recordedHeight == list.scrollTop + list.clientHeight {
        list.scrollTop := list.scrollHeight - list.clientHeight;
      }
      recordedHeight := if list == null then 0 else list.scrollHeight;
    }
  }

  /** Seed, receive a batch, unmount, and receive another batch. */
  method MountScenario(a: Log, b: Log, c: Log)
  {
    var reader := new LogsStreamReader([a]);
    var view := new LogsView(reader, null);
    view.Attach();
    assert view.logs[..] == [a];
    view.Deliver([b], [1000]);
    assert view.logs[..] == [a, b.(time := 1000)];
    assert reader.buffer[..] == [a];
    view.Detach();
    view.Deliver([c], [2000]);
    assert view.logs[..] == [a, b.(time := 1000)];
  }

  /** A list at the bottom follows an appended batch. */
  method PinnedScrollScenario()
  {
    var list := new ListElement(0, 100, 100);
    var view := new LogsView(null, list);
    list.scrollHeight := 160;
    view.Layout(list);
    assert list.Measure() == Geometry(60, 100, 160);
    assert view.recordedHeight == 160;
  }

  /** A list scrolled up stays where it is when a batch is appended. */
  method ScrolledUpScenario()
  {
    var list := new ListElement(20, 100, 160);
    var view := new LogsView(null, list);
    list.scrollHeight := 200;
    view.Layout(list);
    assert list.Measure() == Geometry(20, 100, 200);
  }
}
