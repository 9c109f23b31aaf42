/**
 * The peer roster of the React demo (src/react-demo/Demo.tsx).
 *
 * The roster is a list of DemoPeer entries, one per remote peer the demo has
 * heard of. Every update builds a new list from the old one with a `map` or a
 * `filter`; here each update is a function on sequences, and its contract
 * says which entries change and how, and that the order of the list and the
 * ids of its entries are kept.
 */
module Roster {
  import opened Handles

  /** The `type` tag of a chat line (the `Chat` interface of src/react-demo/widget.tsx). */
  datatype ChatKind = Incoming | Outgoing | Info

  datatype Chat = Chat(kind: ChatKind, message: string)

  /** A peer with the data the demo keeps about it. */
  datatype DemoPeer = DemoPeer(
    peerId: int,
    peer: Option<Peer>,
    announcements: seq<Announcement>,
    chatHistory: seq<Chat>,
    streamStopCount: int)

  /** makePeer: a new entry for a connected peer, with nothing received yet. */
  function MakePeer(p: Peer): (d: DemoPeer)
    ensures d.peerId == p.peerId && d.peer == Some(p) && HandlesMatchIds([d])
    ensures d.chatHistory == [] && d.announcements == [] && d.streamStopCount == 0
  {
    DemoPeer(p.peerId, Some(p), [], [], 0)
  }

  /** `ps.map(p => p.peerId === id ? f(p) : p)`: entries with the id are replaced by f of themselves. */
  function UpdateWhere(ps: seq<DemoPeer>, id: int, f: DemoPeer -> DemoPeer): (r: seq<DemoPeer>)
    ensures |r| == |ps|
    ensures forall i :: 0 <= i < |ps| && ps[i].peerId == id ==> r[i] == f(ps[i])
    ensures forall i :: 0 <= i < |ps| && ps[i].peerId != id ==> r[i] == ps[i]
  {
    if ps == [] then []
    else [if ps[0].peerId == id then f(ps[0]) else ps[0]] + UpdateWhere(ps[1..], id, f)
  }

  /**
   * addChat: every entry with the peer's id gets the chat appended at the end
   * of its history and is otherwise unchanged; every other entry is unchanged.
   */
  function AddChat(ps: seq<DemoPeer>, peer: Peer, chat: Chat): (r: seq<DemoPeer>)
    ensures |r| == |ps|
    ensures forall i :: 0 <= i < |ps| ==> r[i].peerId == ps[i].peerId
    ensures forall i :: 0 <= i < |ps| && ps[i].peerId == peer.peerId ==>
              r[i] == ps[i].(chatHistory := ps[i].chatHistory + [chat])
    ensures forall i :: 0 <= i < |ps| && ps[i].peerId != peer.peerId ==> r[i] == ps[i]
  {
    UpdateWhere(ps, peer.peerId, (p: DemoPeer) => p.(chatHistory := p.chatHistory + [chat]))
  }

  /** addAnnouncement: the same shape as addChat, on the announcements of the matching entries. */
  function AddAnnouncement(ps: seq<DemoPeer>, peer: Peer, a: Announcement): (r: seq<DemoPeer>)
    ensures |r| == |ps|
    ensures forall i :: 0 <= i < |ps| ==> r[i].peerId == ps[i].peerId
    ensures forall i :: 0 <= i < |ps| && ps[i].peerId == peer.peerId ==>
              r[i] == ps[i].(announcements := ps[i].announcements + [a])
    ensures forall i :: 0 <= i < |ps| && ps[i].peerId != peer.peerId ==> r[i] == ps[i]
  {
    UpdateWhere(ps, peer.peerId, (p: DemoPeer) => p.(announcements := p.announcements + [a]))
  }

  /** The PeerState.Failed update: entries with the id stay, with their peer handle cleared. */
  function MarkFailed(ps: seq<DemoPeer>, peer: Peer): (r: seq<DemoPeer>)
    ensures |r| == |ps|
    ensures forall i :: 0 <= i < |ps| ==> r[i].peerId == ps[i].peerId
    ensures forall i :: 0 <= i < |ps| && ps[i].peerId == peer.peerId ==> r[i] == ps[i].(peer := None)
    ensures forall i :: 0 <= i < |ps| && ps[i].peerId != peer.peerId ==> r[i] == ps[i]
  {
    UpdateWhere(ps, peer.peerId, (p: DemoPeer) => p.(peer := None))
  }

  /** The number of entries with the id. */
  function CountId(ps: seq<DemoPeer>, id: int): (n: nat)
    ensures n <= |ps|
    ensures n == 0 <==> forall i :: 0 <= i < |ps| ==> ps[i].peerId != id
  {
    if ps == [] then 0 else (if ps[0].peerId == id then 1 else 0) + CountId(ps[1..], id)
  }

  /** The widget's disconnect: `ps.filter(x => x.peerId !== id)`. */
  function RemovePeer(ps: seq<DemoPeer>, id: int): (r: seq<DemoPeer>)
    ensures |r| == |ps| - CountId(ps, id)
    ensures forall d :: d in r <==> d in ps && d.peerId != id
  {
    if ps == [] then []
    else if ps[0].peerId == id then RemovePeer(ps[1..], id)
    else [ps[0]] + RemovePeer(ps[1..], id)
  }

  /** Removing from a concatenation removes from each part: the kept entries stay in their order. */
  lemma {:induction false} RemovePeerAppend(a: seq<DemoPeer>, b: seq<DemoPeer>, id: int)
    ensures RemovePeer(a + b, id) == RemovePeer(a, id) + RemovePeer(b, id)
    decreases |a|
  {
    if a == [] {
      assert a + b == b;
    } else {
      assert (a + b)[0] == a[0];
      assert (a + b)[1..] == a[1..] + b;
      RemovePeerAppend(a[1..], b, id);
      if a[0].peerId != id {
        assert [a[0]] + (RemovePeer(a[1..], id) + RemovePeer(b, id))
            == ([a[0]] + RemovePeer(a[1..], id)) + RemovePeer(b, id);
      }
    }
  }

  /** A roster without the id is left as it is, and removing twice removes nothing more. */
  lemma {:induction false} RemovePeerIdempotent(ps: seq<DemoPeer>, id: int)
    ensures CountId(ps, id) == 0 ==> RemovePeer(ps, id) == ps
    ensures RemovePeer(RemovePeer(ps, id), id) == RemovePeer(ps, id)
    decreases |ps|
  {
    if ps != [] {
      RemovePeerIdempotent(ps[1..], id);
      if ps[0].peerId != id {
        assert ([ps[0]] + RemovePeer(ps[1..], id))[1..] == RemovePeer(ps[1..], id);
      }
      if CountId(ps, id) == 0 {
        assert ps == [ps[0]] + ps[1..];
      }
    }
  }

  /** No two entries share an id, so React's keys are distinct. */
  predicate UniqueIds(ps: seq<DemoPeer>)
  {
    forall i, j :: 0 <= i < j < |ps| ==> ps[i].peerId != ps[j].peerId
  }

  /** `list.find(p => p.peerId === id)` found an entry. */
  predicate HasId(ps: seq<DemoPeer>, id: int)
  {
    exists i :: 0 <= i < |ps| && ps[i].peerId == id
  }

  /**
   * The PeerState.New update as written: the search runs over `captured`, the
   * roster the listener closed over when the runtime was created, while the
   * append goes to `latest`, the roster at the time of the event.
   */
  function OnPeerNewAsWritten(captured: seq<DemoPeer>, latest: seq<DemoPeer>, p: Peer): (r: seq<DemoPeer>)
    ensures HasId(captured, p.peerId) ==> r == latest
    ensures !HasId(captured, p.peerId) ==> r == latest + [MakePeer(p)]
    ensures HandlesMatchIds(latest) ==> HandlesMatchIds(r)
  {
    if HasId(captured, p.peerId) then latest else latest + [MakePeer(p)]
  }

  /**
   * As written, a peer already in the latest roster is appended again when the
   * captured roster does not hold it: the roster then has two entries with
   * one id.
   */
  lemma {:induction false} OnPeerNewAsWrittenDuplicates()
    ensures var p := Peer(1, 511111111111111111);
            var latest := [MakePeer(p)];
            !UniqueIds(OnPeerNewAsWritten([], latest, p)) && UniqueIds(latest)
  {
    var p := Peer(1, 511111111111111111);
    var r := OnPeerNewAsWritten([], [MakePeer(p)], p);
    assert r[0].peerId == r[1].peerId;
  }

  /** The PeerState.New update as intended: append an entry only when the latest roster has none with the id. */
  function OnPeerNew(latest: seq<DemoPeer>, p: Peer): (r: seq<DemoPeer>)
    ensures HasId(r, p.peerId)
    ensures HasId(latest, p.peerId) ==> r == latest
    ensures !HasId(latest, p.peerId) ==> r == latest + [MakePeer(p)]
  {
    if HasId(latest, p.peerId) then latest
    else
      assert (latest + [MakePeer(p)])[|latest|].peerId == p.peerId;
      latest + [MakePeer(p)]
  }

  /** The intended update keeps ids unique and is idempotent. */
  lemma {:induction false} OnPeerNewKeepsUnique(ps: seq<DemoPeer>, p: Peer)
    ensures UniqueIds(ps) ==> UniqueIds(OnPeerNew(ps, p))
    ensures HandlesMatchIds(ps) ==> HandlesMatchIds(OnPeerNew(ps, p))
    ensures OnPeerNew(OnPeerNew(ps, p), p) == OnPeerNew(ps, p)
  {
    var r := OnPeerNew(ps, p);
    if !HasId(ps, p.peerId) && UniqueIds(ps) {
      forall i, j | 0 <= i < j < |r| ensures r[i].peerId != r[j].peerId {
        if j == |ps| {
          assert r[i] == ps[i];
        }
      }
    }
  }

  /** With a roster captured at the time of the event, the code as written is the intended update. */
  lemma {:induction false} OnPeerNewAsWrittenFresh(ps: seq<DemoPeer>, p: Peer)
    ensures OnPeerNewAsWritten(ps, ps, p) == OnPeerNew(ps, p)
  {
  }

  /**
   * An update that keeps every entry's id and position, and only keeps or
   * clears handles, keeps the ids unique if they were, and the handles
   * matching if they did.
   */
  lemma {:induction false} SameIdsKeepRoster(ps: seq<DemoPeer>, r: seq<DemoPeer>)
    requires |r| == |ps|
    requires forall i :: 0 <= i < |ps| ==> r[i].peerId == ps[i].peerId
    requires forall i :: 0 <= i < |ps| && r[i].peer.Some? ==> r[i].peer == ps[i].peer
    ensures UniqueIds(ps) ==> UniqueIds(r)
    ensures HandlesMatchIds(ps) ==> HandlesMatchIds(r)
  {
    if UniqueIds(ps) {
      forall i, j | 0 <= i < j < |r| ensures r[i].peerId != r[j].peerId {
        assert r[i].peerId == ps[i].peerId && r[j].peerId == ps[j].peerId;
      }
    }
  }

  lemma {:induction false} AddChatKeepsRoster(ps: seq<DemoPeer>, p: Peer, chat: Chat)
    ensures UniqueIds(ps) ==> UniqueIds(AddChat(ps, p, chat))
    ensures HandlesMatchIds(ps) ==> HandlesMatchIds(AddChat(ps, p, chat))
  {
    SameIdsKeepRoster(ps, AddChat(ps, p, chat));
  }

  lemma {:induction false} AddAnnouncementKeepsRoster(ps: seq<DemoPeer>, p: Peer, a: Announcement)
    ensures UniqueIds(ps) ==> UniqueIds(AddAnnouncement(ps, p, a))
    ensures HandlesMatchIds(ps) ==> HandlesMatchIds(AddAnnouncement(ps, p, a))
  {
    SameIdsKeepRoster(ps, AddAnnouncement(ps, p, a));
  }

  lemma {:induction false} MarkFailedKeepsRoster(ps: seq<DemoPeer>, p: Peer)
    ensures UniqueIds(ps) ==> UniqueIds(MarkFailed(ps, p))
    ensures HandlesMatchIds(ps) ==> HandlesMatchIds(MarkFailed(ps, p))
  {
    SameIdsKeepRoster(ps, MarkFailed(ps, p));
  }

  /** Removing by id keeps ids unique and leaves no entry with the removed id. */
  lemma {:induction false} RemovePeerKeepsUnique(ps: seq<DemoPeer>, id: int)
    ensures UniqueIds(ps) ==> UniqueIds(RemovePeer(ps, id))
    ensures !HasId(RemovePeer(ps, id), id)
    decreases |ps|
  {
    var r := RemovePeer(ps, id);
    if ps != [] && UniqueIds(ps) {
      RemovePeerKeepsUnique(ps[1..], id);
      var t := RemovePeer(ps[1..], id);
      if ps[0].peerId != id {
        forall j | 0 <= j < |t| ensures t[j].peerId != ps[0].peerId {
          assert t[j] in ps[1..];
        }
        assert r == [ps[0]] + t;
      }
    }
    forall i | 0 <= i < |r| ensures r[i].peerId != id {
      assert r[i] in r;
    }
  }

  /**
   * A handle stored in an entry belongs to that entry's peer: true of
   * makePeer's entries, and kept by every update of the roster.
   */
  predicate HandlesMatchIds(ps: seq<DemoPeer>)
  {
    forall i :: 0 <= i < |ps| && ps[i].peer.Some? ==> ps[i].peer.value.peerId == ps[i].peerId
  }

  /** Removing entries keeps the handles of those that stay. */
  lemma {:induction false} RemovePeerKeepsHandles(ps: seq<DemoPeer>, id: int)
    requires HandlesMatchIds(ps)
    ensures HandlesMatchIds(RemovePeer(ps, id))
  {
    var r := RemovePeer(ps, id);
    forall i | 0 <= i < |r| && r[i].peer.Some? ensures r[i].peer.value.peerId == r[i].peerId {
      assert r[i] in ps;
    }
  }

  /**
   * Chat lines reach an entry in the order the messages happened: an
   * outgoing line sent after an incoming one is appended after it.
   */
  lemma {:induction false} ChatOrder(ps: seq<DemoPeer>, p: Peer, incoming: string, outgoing: string, i: int)
    requires 0 <= i < |ps| && ps[i].peerId == p.peerId
    ensures var r := AddChat(AddChat(ps, p, Chat(Incoming, incoming)), p, Chat(Outgoing, outgoing));
            r[i].chatHistory == ps[i].chatHistory + [Chat(Incoming, incoming), Chat(Outgoing, outgoing)]
  {
    var r1 := AddChat(ps, p, Chat(Incoming, incoming));
    assert r1[i].chatHistory + [Chat(Outgoing, outgoing)] == ps[i].chatHistory + [Chat(Incoming, incoming), Chat(Outgoing, outgoing)];
  }
}
