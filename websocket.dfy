/**
 * The broadcast server. Each live connection has an outbox: the ordered
 * "imageChanged" payloads the server has emitted to it. Three events drive
 * the server: a connection (catch-up emit of the stored value to that
 * connection alone), a "changeImage" request (store, then emit to every live
 * connection, the sender included) and a disconnection (removal from the
 * live set).
 *
 * `Hub` and the `After...` functions are the abstract state machine; class
 * `Server` is the event-handling object, proved to follow it.
 */
module WebSocket {
  import opened Options
  import Storage

  /** Identity of a connection; the transport gives every connection a new one. */
  type ConnId = nat

  /** The payload of one "imageChanged" message: the stored value, possibly absent. */
  type Payload = Option<string>

  datatype Hub = Hub(
    image: Option<string>,                 // the store's current image
    live: set<ConnId>,                     // currently connected clients
    outbox: map<ConnId, seq<Payload>>,     // what was emitted to each, in send order
    next: ConnId)                          // the identity the next connection gets

  /** The transitions of the server, one per handler. */
  datatype Event = Connect | ChangeImage(sender: ConnId, url: string) | Disconnect(id: ConnId)

  /**
   * The server's invariant: outboxes exist for exactly the live connections,
   * no live identity is handed out again, and every live connection's most
   * recent message is the stored value.
   */
  ghost predicate Inv(h: Hub)
  {
    && h.outbox.Keys == h.live
    && (forall c :: c in h.live ==> c < h.next)
    && (forall c :: c in h.outbox ==> |h.outbox[c]| > 0 && h.outbox[c][|h.outbox[c]| - 1] == h.image)
  }

  /** A server that has just started over a store holding `image`, with nobody connected. */
  function Started(image: Option<string>): Hub
  {
    Hub(image, {}, map[], 0)
  }

  /** io.on('connection'): the new connection gets one message, the stored value. */
  function AfterConnect(h: Hub): (r: Hub)
    ensures r.live == h.live + {h.next} && r.image == h.image
    ensures h.next in r.outbox && r.outbox[h.next] == [h.image]
    ensures Inv(h) ==> Inv(r)
  {
    h.(live := h.live + {h.next}, outbox := h.outbox[h.next := [h.image]], next := h.next + 1)
  }

  /**
   * socket.on('changeImage'): store `url`, then emit it to every live
   * connection. A request from a connection that is no longer live never
   * reaches a handler and is lost.
   */
  function AfterChangeImage(h: Hub, sender: ConnId, url: string): (r: Hub)
    ensures r.live == h.live && r.next == h.next
    ensures r.image == if sender in h.live then Some(url) else h.image
    ensures Inv(h) ==> Inv(r)
  {
    if sender in h.live then
      h.(image := Some(url), outbox := map c | c in h.outbox :: h.outbox[c] + [Some(url)])
    else
      h
  }

  /** socket.on('disconnect'): the connection leaves the live set and its outbox is dropped. */
  function AfterDisconnect(h: Hub, id: ConnId): (r: Hub)
    ensures r.live == h.live - {id} && r.image == h.image
    ensures Inv(h) ==> Inv(r)
  {
    h.(live := h.live - {id}, outbox := h.outbox - {id})
  }

  /** One handler run; each keeps the invariant and never hands out an identity twice. */
  function Step(h: Hub, e: Event): (r: Hub)
    ensures Inv(h) ==> Inv(r)
    ensures r.next >= h.next
    ensures !e.ChangeImage? ==> r.image == h.image
  {
    match e
    case Connect => AfterConnect(h)
    case ChangeImage(sender, url) => AfterChangeImage(h, sender, url)
    case Disconnect(id) => AfterDisconnect(h, id)
  }

  /**
   * The state after the events `es`, handled one at a time in order. The
   * invariant holds after any sequence of events; in particular every live
   * connection's last message is the stored value.
   */
  function Run(h: Hub, es: seq<Event>): (r: Hub)
    ensures Inv(h) ==> Inv(r)
    ensures r.next >= h.next
    decreases |es|
  {
    if es == [] then h else Step(Run(h, es[..|es| - 1]), es[|es| - 1])
  }

  /**
   * The image a client shows after handling the messages `msgs` in order,
   * starting from `shown`. This is the fold of the pages' "imageChanged"
   * handler (`OnImageChanged` in `Admin`, `Viewer` and `Home`), which
   * overwrites the shown image with the payload: a client shows the last
   * message it handled.
   */
  function Shown(shown: Option<string>, msgs: seq<Payload>): (r: Option<string>)
    ensures msgs == [] ==> r == shown
    ensures msgs != [] ==> r == msgs[|msgs| - 1]
    decreases |msgs|
  {
    if msgs == [] then shown else Shown(msgs[0], msgs[1..])
  }

  // ---------------------------------------------------------------- one event

  lemma StartedInv(image: Option<string>)
    ensures Inv(Started(image)) && Started(image).live == {}
  {
  }

  /** Catch-up: the newcomer has a fresh identity and exactly one message, the stored value; nothing else changes. */
  lemma ConnectCatchUp(h: Hub)
    requires Inv(h)
    ensures var r := AfterConnect(h);
      && h.next !in h.live
      && r.live == h.live + {h.next}
      && r.outbox[h.next] == [h.image]
      && r.image == h.image
      && (forall c :: c in h.live ==> r.outbox[c] == h.outbox[c])
      && Inv(r)
  {
  }

  /** Fan-out: every live connection, the sender included, gets `url` appended exactly once. */
  lemma ChangeImageFanOut(h: Hub, sender: ConnId, url: string)
    requires Inv(h) && sender in h.live
    ensures var r := AfterChangeImage(h, sender, url);
      && r.image == Some(url)
      && r.live == h.live
      && r.next == h.next
      && (forall c :: c in h.live ==> r.outbox[c] == h.outbox[c] + [Some(url)])
      && Inv(r)
  {
  }

  /** A request from a connection that is gone changes nothing. */
  lemma ChangeImageLost(h: Hub, sender: ConnId, url: string)
    requires sender !in h.live
    ensures AfterChangeImage(h, sender, url) == h
  {
  }

  /** Disconnection removes that connection only; the store and every other outbox are untouched. */
  lemma DisconnectIsolation(h: Hub, id: ConnId)
    requires Inv(h)
    ensures var r := AfterDisconnect(h, id);
      && r.live == h.live - {id}
      && r.image == h.image
      && (forall c :: c in r.live ==> r.outbox[c] == h.outbox[c])
      && Inv(r)
  {
  }

  /** After a disconnection, a broadcast still reaches every remaining connection. */
  lemma BroadcastAfterDisconnect(h: Hub, id: ConnId, sender: ConnId, url: string)
    requires Inv(h) && sender in h.live && sender != id
    ensures var r := AfterChangeImage(AfterDisconnect(h, id), sender, url);
      forall c :: c in h.live && c != id ==> c in r.outbox && r.outbox[c] == h.outbox[c] + [Some(url)]
  {
  }

  // ---------------------------------------------------------- event sequences

  /** Handling `a` then `b` is handling `a + b`. */
  lemma {:induction false} RunAppend(h: Hub, a: seq<Event>, b: seq<Event>)
    ensures Run(h, a + b) == Run(Run(h, a), b)
  {
    if b == [] {
      assert a + b == a;
    } else {
      assert (a + b)[..|a + b| - 1] == a + b[..|b| - 1];
      assert (a + b)[|a + b| - 1] == b[|b| - 1];
      RunAppend(h, a, b[..|b| - 1]);
    }
  }

  /** An identity that has left is never live again: a reconnecting client is a new connection. */
  lemma {:induction false} NoReuse(h: Hub, es: seq<Event>, c: ConnId)
    requires Inv(h) && c < h.next && c !in h.live
    ensures c !in Run(h, es).live
  {
    if es != [] {
      var es' := es[..|es| - 1];
      NoReuse(h, es', c);
    }
  }

  /**
   * Outboxes are append-only: what a connection was sent is a prefix of
   * what it is sent later, so each connection receives its messages in
   * send order.
   */
  lemma {:induction false} AppendOnly(h: Hub, es: seq<Event>, c: ConnId)
    requires Inv(h) && c in h.live && c in Run(h, es).live
    ensures c in Run(h, es).outbox && h.outbox[c] <= Run(h, es).outbox[c]
  {
    if es != [] {
      var es' := es[..|es| - 1];
      var m := Run(h, es');
      if c !in m.live {
        NoReuse(h, es', c);
        assert false;
      }
      AppendOnly(h, es', c);
      assert m.outbox[c] <= Run(h, es).outbox[c];
    }
  }

  /** Connections and disconnections never change the stored value. */
  lemma {:induction false} QuietKeepsImage(h: Hub, es: seq<Event>)
    requires forall k :: 0 <= k < |es| ==> !es[k].ChangeImage?
    ensures Run(h, es).image == h.image
  {
    if es != [] {
      QuietKeepsImage(h, es[..|es| - 1]);
    }
  }

  /**
   * Last write wins: after a request for `url` from a live connection, the
   * store holds `url` for as long as no further request arrives, and every
   * client that connects in the meantime is caught up with `url`.
   */
  lemma LastWriteWins(h: Hub, es: seq<Event>, sender: ConnId, url: string, rest: seq<Event>)
    requires sender in Run(h, es).live
    requires forall k :: 0 <= k < |rest| ==> !rest[k].ChangeImage?
    ensures var r := Run(h, es + [ChangeImage(sender, url)] + rest);
      r.image == Some(url) && AfterConnect(r).outbox[r.next] == [Some(url)]
  {
    RunAppend(h, es + [ChangeImage(sender, url)], rest);
    RunAppend(h, es, [ChangeImage(sender, url)]);
    QuietKeepsImage(Run(h, es + [ChangeImage(sender, url)]), rest);
  }

  /**
   * Convergence: after any events from a fresh start, every live client
   * that has handled its messages shows the stored value, whatever it
   * showed before.
   */
  lemma Converged(image: Option<string>, es: seq<Event>, c: ConnId, shown: Option<string>)
    requires c in Run(Started(image), es).live
    ensures var h := Run(Started(image), es); c in h.outbox && Shown(shown, h.outbox[c]) == h.image
  {
    StartedInv(image);
  }

  /**
   * Two clients connect to a fresh server; the first publishes a slide and
   * then clears the display; both receive the absent value, the slide and
   * the empty string, in that order.
   */
  lemma ClearScenario()
    ensures var h := Step(Step(Step(Step(Started(None), Connect), Connect),
                                ChangeImage(0, "/slides/x.png")), ChangeImage(0, ""));
      && h.image == Some("")
      && h.live == {0, 1}
      && h.outbox[0] == [None, Some("/slides/x.png"), Some("")]
      && h.outbox[1] == [None, Some("/slides/x.png"), Some("")]
  {
  }

  // ------------------------------------------------------------------ the server

  class Server {
    const store: Storage.Store
    var live: set<ConnId>
    var outbox: map<ConnId, seq<Payload>>
    var next: ConnId

    /** The abstract state this object stands for. */
    ghost function Abs(): Hub
      reads this, store
    {
      Hub(store.state.currentImage, live, outbox, next)
    }

    ghost predicate Valid()
      reads this, store
    {
      Inv(Abs())
    }

    /**
     * A server holding a reference to a caller-owned `store`, which may
     * already hold an image.
     */
    constructor (store: Storage.Store)
      ensures this.store == store && Valid()
      ensures Abs() == Started(store.state.currentImage)
    {
      this.store := store;
      live, outbox, next := {}, map[], 0;
    }

    method Connect() returns (id: ConnId)
      requires Valid()
      modifies this
      ensures Valid()
      ensures id == old(next) && id !in old(live)
      ensures Abs() == AfterConnect(old(Abs()))
    {
      id := next;
      next := next + 1;
      live := live + {id};
      var current := store.GetCurrentImage();
      outbox := outbox[id := [current]];
      ConnectCatchUp(old(Abs()));
    }

    method ChangeImage(sender: ConnId, url: string)
      requires Valid()
      modifies this, store
      ensures Valid()
      ensures Abs() == AfterChangeImage(old(Abs()), sender, url)
    {
      if sender !in live {
        return;
      }
      store.SetCurrentImage(url);
      // io.emit: one append per live connection
      var pending := live;
      while pending != {}
        invariant live == old(live) && next == old(next)
        invariant store.state.currentImage == Some(url)
        invariant pending <= live
        invariant outbox.Keys == old(outbox).Keys
        invariant forall c :: c in live - pending ==> outbox[c] == old(outbox)[c] + [Some(url)]
        invariant forall c :: c in pending ==> outbox[c] == old(outbox)[c]
        decreases pending
      {
        var c :| c in pending;
        outbox := outbox[c := outbox[c] + [Some(url)]];
        pending := pending - {c};
      }
      ChangeImageFanOut(old(Abs()), sender, url);
    }

    method Disconnect(id: ConnId)
      requires Valid()
      modifies this
      ensures Valid()
      ensures Abs() == AfterDisconnect(old(Abs()), id)
    {
      live := live - {id};
      outbox := outbox - {id};
      DisconnectIsolation(old(Abs()), id);
    }
  }
}
