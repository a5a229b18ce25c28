/**
 * The approval workflow for CRM changes: requests waiting for a decision,
 * the history of decided and completed requests, and the set of users who
 * may decide. Clock readings are passed in as text.
 */
module Approvals {
  import opened Text
  import opened JsonModel

  datatype Status = Pending | Approved | Rejected | Completed

  /** One request record. */
  datatype Request = Request(
    requestId: string,
    requesterId: string,
    operation: string,
    entityType: string,
    entityId: Option<int>,
    entityName: string,
    data: Fields,
    status: Status,
    createdAt: string,
    approvedBy: Option<string>,
    approvedAt: Option<string>,
    rejectionReason: Option<string>,
    completedAt: Option<string>)

  /** Python truthiness of an optional integer id. */
  predicate TruthyId(id: Option<int>) { id.Some? && id.value != 0 }

  /** The request id: operation, entity type, the id when truthy, and the creation timestamp. */
  function RequestId(operation: string, entityType: string, entityId: Option<int>, timestamp: string): string {
    var prefix := operation + "_" + entityType + "_";
    if TruthyId(entityId) then prefix + IntToString(entityId.value) + "_" + timestamp else prefix + timestamp
  }

  /**
   * Two requests for the same operation, type and id get different ids when
   * their timestamps differ, and the same id when they do not.
   */
  lemma RequestIdDistinct(operation: string, entityType: string, entityId: Option<int>, t1: string, t2: string)
    ensures RequestId(operation, entityType, entityId, t1) == RequestId(operation, entityType, entityId, t2) <==> t1 == t2
  {
    var prefix := operation + "_" + entityType + "_";
    var head := if TruthyId(entityId) then prefix + IntToString(entityId.value) + "_" else prefix;
    assert RequestId(operation, entityType, entityId, t1) == head + t1;
    assert RequestId(operation, entityType, entityId, t2) == head + t2;
    if head + t1 == head + t2 {
      assert t1 == (head + t1)[|head|..];
      assert t2 == (head + t2)[|head|..];
    }
  }

  /** The record create_request stores. */
  function NewRequest(requestId: string, requesterId: string, operation: string, entityType: string,
                      entityId: Option<int>, data: Option<Fields>, entityName: string, createdAt: string): Request
  {
    Request(requestId, requesterId, operation, entityType, entityId, entityName,
            if data.Some? then data.value else [], Pending, createdAt, None, None, None, None)
  }

  /** Whether a decision on the request by this user is accepted. */
  predicate CanDecide(pending: map<string, Request>, approvers: set<string>, id: string, approver: string) {
    id in pending && approver in approvers && pending[id].status == Pending
  }

  /** The record after a decision. */
  function Decided(r: Request, status: Status, approver: string, now: string): Request {
    r.(status := status, approvedBy := Some(approver), approvedAt := Some(now))
  }

  /** A decided request cannot be decided again by anyone. */
  lemma DecisionIsFinal(pending: map<string, Request>, approvers: set<string>, id: string, approver: string,
                        now: string, other: string)
    requires CanDecide(pending, approvers, id, approver)
    ensures !CanDecide(pending[id := Decided(pending[id], Approved, approver, now)], approvers, id, other)
  {
  }

  /** The ids of `order` other than `id`, in order. */
  function Without(order: seq<string>, id: string): (r: seq<string>)
    ensures forall x :: x in r <==> x in order && x != id
    ensures |r| <= |order|
  {
    if order == [] then []
    else (if order[0] == id then [] else [order[0]]) + Without(order[1..], id)
  }

  predicate Distinct(order: seq<string>) {
    forall i, j :: 0 <= i < j < |order| ==> order[i] != order[j]
  }

  lemma {:induction false} WithoutDistinct(order: seq<string>, id: string)
    requires Distinct(order)
    ensures Distinct(Without(order, id))
    decreases |order|
  {
    if order != [] {
      WithoutDistinct(order[1..], id);
      var rest := Without(order[1..], id);
      var r := (if order[0] == id then [] else [order[0]]) + rest;
      forall i, j | 0 <= i < j < |r| ensures r[i] != r[j] {
        if order[0] != id && i == 0 {
          assert r[j] in rest;
          assert r[j] in order[1..];
        }
      }
    }
  }

  /** The requests of `order` whose status is pending, in order. */
  function PendingOf(order: seq<string>, pending: map<string, Request>): (r: seq<Request>)
    ensures forall x :: x in r <==> exists i :: 0 <= i < |order| && order[i] in pending && pending[order[i]] == x && x.status == Pending
  {
    if order == [] then []
    else
      var rest := PendingOf(order[1..], pending);
      var head := if order[0] in pending && pending[order[0]].status == Pending then [pending[order[0]]] else [];
      assert forall x :: x in rest <==>
        exists i :: 1 <= i < |order| && order[i] in pending && pending[order[i]] == x && x.status == Pending by {
        forall x | x in rest ensures exists i :: 1 <= i < |order| && order[i] in pending && pending[order[i]] == x && x.status == Pending {
          var k :| 0 <= k < |order[1..]| && order[1..][k] in pending && pending[order[1..][k]] == x && x.status == Pending;
          assert order[k + 1] == order[1..][k];
        }
        forall x | exists i :: 1 <= i < |order| && order[i] in pending && pending[order[i]] == x && x.status == Pending
          ensures x in rest
        {
          var i :| 1 <= i < |order| && order[i] in pending && pending[order[i]] == x && x.status == Pending;
          assert order[1..][i - 1] == order[i];
        }
      }
      head + rest
  }

  /** Appending an id to the order appends its request exactly when it is stored and pending. */
  lemma {:induction false} PendingOfAppend(order: seq<string>, id: string, pending: map<string, Request>)
    ensures PendingOf(order + [id], pending)
         == PendingOf(order, pending) + (if id in pending && pending[id].status == Pending then [pending[id]] else [])
    decreases |order|
  {
    if order != [] {
      assert (order + [id])[1..] == order[1..] + [id];
      PendingOfAppend(order[1..], id, pending);
    }
  }

  /** The ids of `order` whose stored request is pending. */
  function PendingIds(order: seq<string>, pending: map<string, Request>): set<string> {
    set id | id in order && id in pending && pending[id].status == Pending
  }

  /** Splitting off the first id of `order`. */
  lemma PendingIdsCons(order: seq<string>, pending: map<string, Request>)
    requires order != []
    ensures PendingIds(order, pending)
         == PendingIds(order[1..], pending) + (if order[0] in pending && pending[order[0]].status == Pending then {order[0]} else {})
  {
    var tail := order[1..];
    forall x | x in PendingIds(order, pending) && x != order[0] ensures x in PendingIds(tail, pending) {
      var k :| 0 <= k < |order| && order[k] == x;
      assert tail[k - 1] == x;
    }
  }

  /** Over distinct ids, each pending request is listed once: one entry per pending id. */
  lemma {:induction false} PendingOfCount(order: seq<string>, pending: map<string, Request>)
    requires Distinct(order)
    ensures |PendingOf(order, pending)| == |PendingIds(order, pending)|
    decreases |order|
  {
    if order != [] {
      var tail := order[1..];
      assert Distinct(tail) by {
        forall i, j | 0 <= i < j < |tail| ensures tail[i] != tail[j] {
          assert tail[i] == order[i + 1] && tail[j] == order[j + 1];
        }
      }
      PendingOfCount(tail, pending);
      assert order[0] !in tail by {
        forall k | 0 <= k < |tail| ensures tail[k] != order[0] {
          assert tail[k] == order[k + 1];
        }
      }
      PendingIdsCons(order, pending);
    }
  }

  /** The store of approval requests. */
  class ApprovalSystem {
    var pending: map<string, Request>
    /** The keys of `pending` in insertion order, as a Python dict keeps them. */
    var order: seq<string>
    var history: seq<Request>
    var approvers: set<string>

    ghost predicate Valid()
      reads this
    {
      (forall id :: id in pending <==> id in order) && Distinct(order)
    }

    constructor ()
      ensures Valid()
      ensures pending == map[] && order == [] && history == [] && approvers == {}
    {
      pending := map[];
      order := [];
      history := [];
      approvers := {};
    }

    /** is_approver. */
    function IsApprover(userId: string): bool
      reads this
    {
      userId in approvers
    }

    /** add_approver: the user becomes an approver; nothing else changes. */
    method AddApprover(userId: string)
      requires Valid()
      modifies this
      ensures Valid() && IsApprover(userId)
      ensures approvers == old(approvers) + {userId}
      ensures pending == old(pending) && order == old(order) && history == old(history)
    {
      approvers := approvers + {userId};
    }

    /** remove_approver: the user is no approver afterwards, whether or not they were one. */
    method RemoveApprover(userId: string)
      requires Valid()
      modifies this
      ensures Valid() && !IsApprover(userId)
      ensures approvers == old(approvers) - {userId}
      ensures pending == old(pending) && order == old(order) && history == old(history)
    {
      approvers := approvers - {userId};
    }

    /** create_request: stores a new pending request under its id and returns the id. */
    method CreateRequest(requesterId: string, operation: string, entityType: string, entityId: Option<int>,
                         data: Option<Fields>, entityName: string, timestamp: string, createdAt: string)
      returns (requestId: string)
      requires Valid()
      modifies this
      ensures Valid()
      ensures requestId == RequestId(operation, entityType, entityId, timestamp)
      ensures pending == old(pending)[requestId :=
        NewRequest(requestId, requesterId, operation, entityType, entityId, data, entityName, createdAt)]
      ensures order == if requestId in old(pending) then old(order) else old(order) + [requestId]
      ensures history == old(history) && approvers == old(approvers)
    {
      requestId := RequestId(operation, entityType, entityId, timestamp);
      if requestId !in pending {
        order := order + [requestId];
      }
      pending := pending[requestId := NewRequest(requestId, requesterId, operation, entityType, entityId, data, entityName, createdAt)];
    }

    /** create_update_request: an update request for an existing entity. */
    method CreateUpdateRequest(requesterId: string, entityType: string, entityId: int, updates: Fields,
                               entityName: string, timestamp: string, createdAt: string)
      returns (requestId: string)
      requires Valid()
      modifies this
      ensures Valid()
      ensures requestId == RequestId("update", entityType, Some(entityId), timestamp)
      ensures pending == old(pending)[requestId :=
        NewRequest(requestId, requesterId, "update", entityType, Some(entityId), Some(updates), entityName, createdAt)]
      ensures order == if requestId in old(pending) then old(order) else old(order) + [requestId]
      ensures history == old(history) && approvers == old(approvers)
    {
      requestId := CreateRequest(requesterId, "update", entityType, Some(entityId), Some(updates), entityName, timestamp, createdAt);
    }

    /** get_pending_requests: the stored requests whose status is pending, in insertion order. */
    function PendingRequests(): (r: seq<Request>)
      reads this
      requires Valid()
      ensures forall x :: x in r <==> exists id :: id in pending && pending[id] == x && x.status == Pending
      ensures |r| == |set id | id in pending && pending[id].status == Pending|
    {
      var r := PendingOf(order, pending);
      PendingOfCount(order, pending);
      assert PendingIds(order, pending) == set id | id in pending && pending[id].status == Pending;
      assert forall x :: x in r <==> exists id :: id in pending && pending[id] == x && x.status == Pending by {
        forall x | exists id :: id in pending && pending[id] == x && x.status == Pending
          ensures x in r
        {
          var id :| id in pending && pending[id] == x && x.status == Pending;
          var i :| 0 <= i < |order| && order[i] == id;
        }
      }
      r
    }

    /** get_request. */
    function GetRequest(requestId: string): (r: Option<Request>)
      reads this
      ensures r.Some? <==> requestId in pending
      ensures r.Some? ==> r.value == pending[requestId]
    {
      if requestId in pending then Some(pending[requestId]) else None
    }

    /**
     * approve_request: refused without any change unless the request is
     * stored, pending, and the user is an approver; otherwise the request is
     * marked approved in place and a copy joins the history.
     */
    method ApproveRequest(requestId: string, approverId: string, now: string) returns (ok: bool)
      requires Valid()
      modifies this
      ensures Valid()
      ensures ok <==> CanDecide(old(pending), old(approvers), requestId, approverId)
      ensures ok ==> pending == old(pending)[requestId := Decided(old(pending)[requestId], Approved, approverId, now)]
      ensures ok ==> history == old(history) + [pending[requestId]]
      ensures !ok ==> pending == old(pending) && history == old(history)
      ensures order == old(order) && approvers == old(approvers)
    {
      if requestId !in pending || !IsApprover(approverId) || pending[requestId].status != Pending {
        return false;
      }
      var decided := Decided(pending[requestId], Approved, approverId, now);
      pending := pending[requestId := decided];
      history := history + [decided];
      ok := true;
    }

    /**
     * reject_request: refused on the same conditions as approval; otherwise
     * the request is marked rejected with its reason, copied to the history
     * and removed.
     */
    method RejectRequest(requestId: string, approverId: string, reason: string, now: string) returns (ok: bool)
      requires Valid()
      modifies this
      ensures Valid()
      ensures ok <==> CanDecide(old(pending), old(approvers), requestId, approverId)
      ensures ok ==>
        history == old(history) + [Decided(old(pending)[requestId], Rejected, approverId, now).(rejectionReason := Some(reason))]
      ensures ok ==> pending == old(pending) - {requestId} && order == Without(old(order), requestId)
      ensures !ok ==> pending == old(pending) && history == old(history) && order == old(order)
      ensures approvers == old(approvers)
    {
      if requestId !in pending || !IsApprover(approverId) || pending[requestId].status != Pending {
        return false;
      }
      var decided := Decided(pending[requestId], Rejected, approverId, now).(rejectionReason := Some(reason));
      history := history + [decided];
      WithoutDistinct(order, requestId);
      pending := pending - {requestId};
      order := Without(order, requestId);
      ok := true;
    }

    /**
     * complete_request: a stored request of any status is marked completed,
     * copied to the history and removed; an unknown id changes nothing.
     */
    method CompleteRequest(requestId: string, now: string)
      requires Valid()
      modifies this
      ensures Valid()
      ensures requestId in old(pending) ==>
        history == old(history) + [old(pending)[requestId].(status := Completed, completedAt := Some(now))]
        && pending == old(pending) - {requestId} && order == Without(old(order), requestId)
      ensures requestId !in old(pending) ==> pending == old(pending) && history == old(history) && order == old(order)
      ensures approvers == old(approvers)
    {
      if requestId in pending {
        var done := pending[requestId].(status := Completed, completedAt := Some(now));
        history := history + [done];
        WithoutDistinct(order, requestId);
        pending := pending - {requestId};
        order := Without(order, requestId);
      }
    }
  }

  // ---------------------------------------------------------------------
  // create_approval_blocks

  predicate IsLetter(c: char) { 'a' <= c <= 'z' || 'A' <= c <= 'Z' }

  function UpperChar(c: char): char {
    if 'a' <= c <= 'z' then (c as int - 32) as char else c
  }

  /** str.title() on ASCII text: a letter after a letter is lowered, any other letter raised. */
  function TitleFrom(s: string, afterLetter: bool): (r: string)
    ensures |r| == |s|
    ensures forall i :: 0 <= i < |s| && !IsLetter(s[i]) ==> r[i] == s[i]
    ensures |s| > 0 && IsLetter(s[0]) ==> r[0] == if afterLetter then LowerChar(s[0]) else UpperChar(s[0])
    ensures forall i :: 0 < i < |s| && IsLetter(s[i]) ==>
      r[i] == if IsLetter(s[i - 1]) then LowerChar(s[i]) else UpperChar(s[i])
  {
    if s == [] then []
    else
      var c := s[0];
      [if !IsLetter(c) then c else if afterLetter then LowerChar(c) else UpperChar(c)]
        + TitleFrom(s[1..], IsLetter(c))
  }

  function Title(s: string): string { TitleFrom(s, false) }

  datatype Kind = CreateKind | DeleteKind | UpdateKind

  function KindOf(operation: string): Kind {
    if operation == "create" then CreateKind else if operation == "delete" then DeleteKind else UpdateKind
  }

  /** The pieces of text the blocks carry. */
  datatype Item =
    | EntityItem(entityName: string)
    | TypeItem(entityTitle: string)
    | IdItem(entityId: Option<int>)
    | RequesterItem(userId: string)
    | DeleteWarning
    | DataLabel(kind: Kind)
    | DataItem(field: string, value: Json)

  datatype Button = Button(approve: bool, value: string, actionId: string)

  datatype Block =
    | Header(kind: Kind, entityTitle: string)
    | Section(items: seq<Item>)
    | TextSection(text: Item)
    | Divider
    | Actions(buttons: seq<Button>)

  /** The action buttons of a request. */
  function ActionButtons(requestId: string): seq<Button> {
    [Button(true, requestId, "approve_" + requestId), Button(false, requestId, "reject_" + requestId)]
  }

  /** The list split into consecutive pieces of `size` (the last one may be shorter). */
  function Chunks<T>(xs: seq<T>, size: nat): (r: seq<seq<T>>)
    requires size > 0
    ensures forall c :: c in r ==> 0 < |c| <= size
    decreases |xs|
  {
    if xs == [] then []
    else if |xs| <= size then [xs]
    else [xs[..size]] + Chunks(xs[size..], size)
  }

  function Flatten<T>(xss: seq<seq<T>>): seq<T> {
    if xss == [] then [] else xss[0] + Flatten(xss[1..])
  }

  /** Joining the pieces gives back the list. */
  lemma {:induction false} ChunksFlatten<T>(xs: seq<T>, size: nat)
    requires size > 0
    ensures Flatten(Chunks(xs, size)) == xs
    decreases |xs|
  {
    if xs != [] && |xs| > size {
      ChunksFlatten(xs[size..], size);
      var rest := Chunks(xs[size..], size);
      calc {
        Flatten(Chunks(xs, size));
        Flatten([xs[..size]] + rest);
        { assert ([xs[..size]] + rest)[1..] == rest; }
        xs[..size] + Flatten(rest);
        xs[..size] + xs[size..];
        { assert xs == xs[..size] + xs[size..]; }
        xs;
      }
    } else if xs != [] {
      assert Flatten([xs]) == xs + Flatten([xs][1..]);
      assert [xs][1..] == [];
    }
  }

  /** There are as many pieces as `size` goes into the length, rounded up. */
  lemma {:induction false} ChunksCount<T>(xs: seq<T>, size: nat)
    requires size > 0
    ensures |Chunks(xs, size)| * size >= |xs| > (|Chunks(xs, size)| - 1) * size
    decreases |xs|
  {
    if xs != [] && |xs| > size {
      ChunksCount(xs[size..], size);
      var k := |Chunks(xs[size..], size)|;
      assert |Chunks(xs, size)| == k + 1;
      assert (k + 1) * size == k * size + size;
      assert k * size == (k - 1) * size + size;
    }
  }

  /** The most fields Slack shows in one section. */
  const SectionLimit: nat := 10

  function DataItems(data: Fields): (r: seq<Item>)
    ensures |r| == |data|
    ensures forall i :: 0 <= i < |data| ==> r[i] == DataItem(data[i].0, data[i].1)
  {
    if data == [] then [] else [DataItem(data[0].0, data[0].1)] + DataItems(data[1..])
  }

  function ChunkSections(chunks: seq<seq<Item>>): seq<Block> {
    if chunks == [] then [] else [Section(chunks[0])] + ChunkSections(chunks[1..])
  }

  lemma {:induction false} ChunkSectionsAt(chunks: seq<seq<Item>>, blk: Block)
    requires blk in ChunkSections(chunks)
    ensures blk.Section? && blk.items in chunks
    decreases |chunks|
  {
    if blk != Section(chunks[0]) {
      ChunkSectionsAt(chunks[1..], blk);
    }
  }

  /** The items of the section blocks, in order; other blocks contribute none. */
  function SectionItems(bs: seq<Block>): seq<Item> {
    if bs == [] then []
    else (if bs[0].Section? then bs[0].items else []) + SectionItems(bs[1..])
  }

  lemma {:induction false} SectionItemsAppend(a: seq<Block>, b: seq<Block>)
    ensures SectionItems(a + b) == SectionItems(a) + SectionItems(b)
    decreases |a|
  {
    if a != [] {
      assert (a + b)[1..] == a[1..] + b;
      SectionItemsAppend(a[1..], b);
    } else {
      assert a + b == b;
    }
  }

  lemma {:induction false} SectionItemsOfChunks(chunks: seq<seq<Item>>)
    ensures SectionItems(ChunkSections(chunks)) == Flatten(chunks)
    decreases |chunks|
  {
    if chunks != [] {
      SectionItemsOfChunks(chunks[1..]);
      SectionItemsAppend([Section(chunks[0])], ChunkSections(chunks[1..]));
      assert SectionItems([Section(chunks[0])]) == chunks[0] + SectionItems([Section(chunks[0])][1..]);
    }
  }

  /** The blocks before the divider that precedes the data: header and summary. */
  function SummaryBlocks(r: Request): seq<Block> {
    var kind := KindOf(r.operation);
    var title := Title(r.entityType);
    [Header(kind, title)] +
    (if kind == DeleteKind then
       [Section([EntityItem(r.entityName), IdItem(r.entityId), RequesterItem(r.requesterId)]), TextSection(DeleteWarning)]
     else
       [Section([if kind != CreateKind then EntityItem(r.entityName) else TypeItem(title), RequesterItem(r.requesterId)])])
  }

  /** The data label and the data fields in sections of at most ten, when there is data. */
  function DataBlocks(r: Request): seq<Block> {
    if r.data == [] then []
    else [TextSection(DataLabel(KindOf(r.operation)))] + ChunkSections(Chunks(DataItems(r.data), SectionLimit))
  }

  /** create_approval_blocks as a value. */
  function ApprovalBlocks(requestId: string, r: Request): seq<Block> {
    SummaryBlocks(r) + [Divider] + DataBlocks(r) + [Divider, Actions(ActionButtons(requestId))]
  }

  /**
   * The blocks end with the approve and reject buttons for the request, no
   * section holds more than ten fields, and the sections of the message hold
   * the summary items followed by every field of the request, in order.
   */
  lemma ApprovalBlocksShape(requestId: string, r: Request)
    ensures var b := ApprovalBlocks(requestId, r);
      b[|b| - 1] == Actions([Button(true, requestId, "approve_" + requestId), Button(false, requestId, "reject_" + requestId)])
    ensures forall blk :: blk in ApprovalBlocks(requestId, r) && blk.Section? ==> |blk.items| <= SectionLimit
    ensures SectionItems(ApprovalBlocks(requestId, r)) == SectionItems(SummaryBlocks(r)) + DataItems(r.data)
  {
    var chunks := Chunks(DataItems(r.data), SectionLimit);
    var b := ApprovalBlocks(requestId, r);
    forall blk | blk in b && blk.Section? ensures |blk.items| <= SectionLimit {
      if blk in ChunkSections(chunks) {
        ChunkSectionsAt(chunks, blk);
      }
    }
    ChunksFlatten(DataItems(r.data), SectionLimit);
    ApprovalSectionItems(requestId, r);
  }

  /** The sections of the message hold the summary items, then every field of the request in order. */
  lemma ApprovalSectionItems(requestId: string, r: Request)
    ensures SectionItems(ApprovalBlocks(requestId, r)) == SectionItems(SummaryBlocks(r)) + DataItems(r.data)
  {
    SectionItemsAroundDividers(SummaryBlocks(r), DataBlocks(r), [Divider, Actions(ActionButtons(requestId))]);
    DataSectionItems(r);
  }

  /** Dividers and a section-free tail add no section items. */
  lemma SectionItemsAroundDividers(summary: seq<Block>, data: seq<Block>, tail: seq<Block>)
    requires forall i :: 0 <= i < |tail| ==> !tail[i].Section?
    ensures SectionItems(summary + [Divider] + data + tail) == SectionItems(summary) + SectionItems(data)
  {
    SectionItemsDropTail(summary + [Divider] + data, tail);
    SectionItemsAppend(summary + [Divider], data);
    SectionItemsDropTail(summary, [Divider]);
  }

  /** A section-free tail adds no section items. */
  lemma SectionItemsDropTail(bs: seq<Block>, tail: seq<Block>)
    requires forall i :: 0 <= i < |tail| ==> !tail[i].Section?
    ensures SectionItems(bs + tail) == SectionItems(bs)
  {
    SectionItemsAppend(bs, tail);
    NoSectionItems(tail);
  }

  /** Blocks without a section carry no section items. */
  lemma {:induction false} NoSectionItems(bs: seq<Block>)
    requires forall i :: 0 <= i < |bs| ==> !bs[i].Section?
    ensures SectionItems(bs) == []
    decreases |bs|
  {
    if bs != [] {
      NoSectionItems(bs[1..]);
    }
  }

  /** The data blocks carry the request's fields as section items, in order. */
  lemma DataSectionItems(r: Request)
    ensures SectionItems(DataBlocks(r)) == DataItems(r.data)
  {
    if r.data != [] {
      var chunks := Chunks(DataItems(r.data), SectionLimit);
      var heading := TextSection(DataLabel(KindOf(r.operation)));
      SectionItemsAppend([heading], ChunkSections(chunks));
      NoSectionItems([heading]);
      SectionItemsOfChunks(chunks);
      ChunksFlatten(DataItems(r.data), SectionLimit);
    }
  }

  /** The data fields of a request as block items, one per field in order. */
  method DataFieldItems(data: Fields) returns (items: seq<Item>)
    ensures items == DataItems(data)
  {
    items := [];
    var i := 0;
    while i < |data|
      invariant 0 <= i <= |data|
      invariant items == DataItems(data)[..i]
    {
      assert DataItems(data)[..i + 1] == DataItems(data)[..i] + [DataItem(data[i].0, data[i].1)];
      items := items + [DataItem(data[i].0, data[i].1)];
      i := i + 1;
    }
    assert DataItems(data)[..i] == DataItems(data);
  }

  /** The items in sections of at most ten, in order. */
  method SectionsOf(items: seq<Item>) returns (sections: seq<Block>)
    ensures sections == ChunkSections(Chunks(items, SectionLimit))
  {
    sections := [];
    var rest := items;
    while rest != []
      invariant sections + ChunkSections(Chunks(rest, SectionLimit)) == ChunkSections(Chunks(items, SectionLimit))
      decreases |rest|
    {
      var n := if |rest| <= SectionLimit then |rest| else SectionLimit;
      ghost var tail := ChunkSections(Chunks(rest[n..], SectionLimit));
      ChunkStep(rest);
      assert (sections + [Section(rest[..n])]) + tail == sections + ([Section(rest[..n])] + tail);
      sections := sections + [Section(rest[..n])];
      rest := rest[n..];
    }
    assert ChunkSections(Chunks(rest, SectionLimit)) == [];
    assert sections + [] == sections;
  }

  /** create_approval_blocks. */
  method CreateApprovalBlocks(requestId: string, r: Request) returns (blocks: seq<Block>)
    ensures blocks == ApprovalBlocks(requestId, r)
    ensures blocks[|blocks| - 1].Actions? && blocks[|blocks| - 1].buttons == ActionButtons(requestId)
  {
    blocks := SummaryBlocks(r) + [Divider];
    if r.data != [] {
      var items := DataFieldItems(r.data);
      var sections := SectionsOf(items);
      blocks := blocks + ([TextSection(DataLabel(KindOf(r.operation)))] + sections);
    }
    blocks := blocks + [Divider, Actions(ActionButtons(requestId))];
  }

  /** One turn of the chunking loop: the first piece, then the pieces of the rest. */
  lemma ChunkStep(xs: seq<Item>)
    requires xs != []
    ensures var n := if |xs| <= SectionLimit then |xs| else SectionLimit;
      ChunkSections(Chunks(xs, SectionLimit)) == [Section(xs[..n])] + ChunkSections(Chunks(xs[n..], SectionLimit))
  {
    var n := if |xs| <= SectionLimit then |xs| else SectionLimit;
    var rest := Chunks(xs[n..], SectionLimit);
    if |xs| <= SectionLimit {
      assert xs[..n] == xs;
      assert xs[n..] == [];
    }
    var chunks := [xs[..n]] + rest;
    assert Chunks(xs, SectionLimit) == chunks;
    assert chunks[0] == xs[..n] && chunks[1..] == rest;
    assert ChunkSections(chunks) == [Section(chunks[0])] + ChunkSections(chunks[1..]);
  }
}
