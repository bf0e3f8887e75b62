/** The conversation-history screen: the persisted message table, the screen's
    local copy of it, and the three handlers that touch both (the initial load,
    "delete one turn" and "delete all").

    Each handler is stated twice: once as a function on `HistoryState` values
    (the specification, about which the lemmas below are proved) and once as a
    method of `HistoryScreen` that performs the handler's steps on the
    mutable table and list and is proved to end in the state the function
    gives. */
module History {

  datatype Option<T> = None | Some(value: T)

  /** A logged chat message. `id` is the table's primary key. */
  datatype Message = Message(id: int, text: string, isUser: bool, timestamp: int)

  /* ---------------------------------------------------------------------- */
  /*  List operations used by the handlers                                   */
  /* ---------------------------------------------------------------------- */

  /** Kotlin's `List.getOrNull`: the element at `i`, or nothing when `i` is out of bounds. */
  function GetOrNull<T>(s: seq<T>, i: int): Option<T> {
    if 0 <= i < |s| then Some(s[i]) else None
  }

  /** The elements of `s` that satisfy `keep`, in their original order
      (Kotlin's `filter`; `filterNot` is the same with the test negated). */
  function Filter<T(==,!new)>(s: seq<T>, keep: T -> bool): (r: seq<T>)
    ensures forall x :: x in r <==> x in s && keep(x)
    ensures forall x :: multiset(r)[x] == if keep(x) then multiset(s)[x] else 0
    ensures |r| <= |s|
  {
    assert s != [] ==> s == [s[0]] + s[1..];
    if s == [] then []
    else (if keep(s[0]) then [s[0]] else []) + Filter(s[1..], keep)
  }

  /** `a` can be obtained from `b` by dropping elements, without reordering. */
  ghost predicate IsSubsequence<T(!new)>(a: seq<T>, b: seq<T>)
    decreases |b|
  {
    if a == [] then true
    else if b == [] then false
    else (a[0] == b[0] && IsSubsequence(a[1..], b[1..])) || IsSubsequence(a, b[1..])
  }

  lemma {:induction false} FilterKeepsOrder<T(!new)>(s: seq<T>, keep: T -> bool)
    ensures IsSubsequence(Filter(s, keep), s)
    decreases |s|
  {
    if s != [] {
      FilterKeepsOrder(s[1..], keep);
      var rest := Filter(s[1..], keep);
      if keep(s[0]) {
        assert Filter(s, keep) == [s[0]] + rest;
        assert ([s[0]] + rest)[1..] == rest;
      } else {
        assert Filter(s, keep) == rest;
      }
    }
  }

  lemma {:induction false} SubsequenceTransitive<T(!new)>(a: seq<T>, b: seq<T>, c: seq<T>)
    requires IsSubsequence(a, b) && IsSubsequence(b, c)
    ensures IsSubsequence(a, c)
    decreases |c|
  {
    if a != [] && b != [] && c != [] {
      if b[0] == c[0] && IsSubsequence(b[1..], c[1..]) {
        if a[0] == b[0] && IsSubsequence(a[1..], b[1..]) {
          SubsequenceTransitive(a[1..], b[1..], c[1..]);
        } else {
          SubsequenceTransitive(a, b[1..], c[1..]);
        }
      } else {
        SubsequenceTransitive(a, b, c[1..]);
      }
    }
  }

  /** The rows left after Room's `@Delete` of `m`: rows are matched by primary key. */
  function WithoutRow(rows: seq<Message>, m: Message): seq<Message> {
    Filter(rows, (r: Message) => r.id != m.id)
  }

  /** `list.filterNot { it == m }`, with the structural equality of a data class. */
  function FilterNot(list: seq<Message>, m: Message): seq<Message> {
    Filter(list, (x: Message) => x != m)
  }

  /** The message treated as the other half of the clicked message's turn,
      chosen by position in the displayed list: the next entry for a
      user-authored message, the previous entry otherwise. The author of the
      chosen entry is not looked at. */
  function PairOf(messages: seq<Message>, index: nat, message: Message): (pair: Option<Message>)
    ensures message.isUser ==> (pair.Some? <==> index + 1 < |messages|)
    ensures !message.isUser ==> (pair.Some? <==> 1 <= index <= |messages|)
    ensures pair.Some? ==>
              pair.value == messages[if message.isUser then index + 1 else index - 1]
  {
    if message.isUser then GetOrNull(messages, index + 1) else GetOrNull(messages, index - 1)
  }

  /* ---------------------------------------------------------------------- */
  /*  The handlers as state transitions                                      */
  /* ---------------------------------------------------------------------- */

  /** The persisted table and the screen's local list. */
  datatype HistoryState = HistoryState(store: seq<Message>, messages: seq<Message>)

  /** Where, if anywhere, a storage fault interrupts "delete one turn". */
  datatype DeleteFault = NoFault | MessageDeleteFails | PairDeleteFails

  /** The load effect: the local list becomes the whole table, or is left as it
      was when reading the table fails. */
  function AfterLoad(s: HistoryState, getAllFails: bool): HistoryState {
    if getAllFails then s else HistoryState(s.store, s.store)
  }

  /** "Delete one turn": delete the clicked message, then its pair if there is
      one, then drop the clicked message from the local list. A fault stops
      the handler where it happens; the local list is only reassigned after
      both deletes succeeded. */
  function AfterDeleteTurn(s: HistoryState, index: nat, message: Message, fault: DeleteFault): HistoryState {
    var pair := PairOf(s.messages, index, message);
    if fault == MessageDeleteFails then s
    else
      var store := WithoutRow(s.store, message);
      if pair.None? then HistoryState(store, FilterNot(s.messages, message))
      else if fault == PairDeleteFails then HistoryState(store, s.messages)
      else HistoryState(WithoutRow(store, pair.value), FilterNot(s.messages, message))
  }

  /** "Delete all": the table and the local list are both cleared. */
  function AfterDeleteAll(s: HistoryState): HistoryState {
    HistoryState([], [])
  }

  /* ---------------------------------------------------------------------- */
  /*  Properties of the handlers                                             */
  /* ---------------------------------------------------------------------- */

  /** A freshly opened screen shows exactly the table after a successful
      load, and stays empty after a failed one. */
  lemma LoadShowsStore(store: seq<Message>, getAllFails: bool)
    ensures AfterLoad(HistoryState(store, []), getAllFails).store == store
    ensures AfterLoad(HistoryState(store, []), getAllFails).messages ==
              if getAllFails then [] else store
  {
  }

  /** After a successful delete-turn the table has lost the clicked message
      and its pair (every row sharing their keys), and every other row is
      still there, as many times as before and in its original order. */
  lemma DeleteTurnStore(s: HistoryState, index: nat, message: Message)
    ensures var r := AfterDeleteTurn(s, index, message, NoFault);
            var pair := PairOf(s.messages, index, message);
            (forall x :: x in r.store <==>
               x in s.store && x.id != message.id && (pair.None? || x.id != pair.value.id))
            && (forall x :: multiset(r.store)[x] ==
                  if x.id == message.id || (pair.Some? && x.id == pair.value.id) then 0
                  else multiset(s.store)[x])
            && IsSubsequence(r.store, s.store)
  {
    var pair := PairOf(s.messages, index, message);
    var store := WithoutRow(s.store, message);
    FilterKeepsOrder(s.store, (r: Message) => r.id != message.id);
    if pair.Some? {
      FilterKeepsOrder(store, (r: Message) => r.id != pair.value.id);
      SubsequenceTransitive(WithoutRow(store, pair.value), store, s.store);
    }
  }

  /** After a successful delete-turn the local list is the old one without the
      clicked message (all its copies); every other entry keeps all its
      copies and its place in the order. */
  lemma DeleteTurnLocal(s: HistoryState, index: nat, message: Message)
    ensures var r := AfterDeleteTurn(s, index, message, NoFault);
            (forall x :: x in r.messages <==> x in s.messages && x != message)
            && (forall x :: multiset(r.messages)[x] ==
                  if x == message then 0 else multiset(s.messages)[x])
            && IsSubsequence(r.messages, s.messages)
  {
    FilterKeepsOrder(s.messages, (x: Message) => x != message);
  }

  /** The pair leaves the table but stays on screen: whenever a pair distinct
      from the clicked message exists, a successful delete-turn leaves the
      local list and the table disagreeing. */
  lemma DeleteTurnDiverges(s: HistoryState, index: nat, message: Message)
    requires PairOf(s.messages, index, message).Some?
    requires PairOf(s.messages, index, message).value != message
    ensures var pair := PairOf(s.messages, index, message).value;
            var r := AfterDeleteTurn(s, index, message, NoFault);
            pair in r.messages
            && (forall x :: x in r.store ==> x.id != pair.id)
            && r.messages != r.store
  {
    var pair := PairOf(s.messages, index, message).value;
    var r := AfterDeleteTurn(s, index, message, NoFault);
    assert pair in s.messages;
    DeleteTurnStore(s, index, message);
    DeleteTurnLocal(s, index, message);
    assert pair in r.messages && pair !in r.store;
  }

  /** A fault in either delete leaves the local list untouched. A fault in the
      first delete leaves the table untouched as well; a fault in the pair's
      delete leaves the table without the clicked message, which the screen
      still shows. */
  lemma DeleteTurnFault(s: HistoryState, index: nat, message: Message, fault: DeleteFault)
    requires fault != NoFault
    ensures AfterDeleteTurn(s, index, message, fault).messages == s.messages
              || (PairOf(s.messages, index, message).None? && fault == PairDeleteFails)
    ensures fault == MessageDeleteFails ==> AfterDeleteTurn(s, index, message, fault).store == s.store
    ensures fault == PairDeleteFails && PairOf(s.messages, index, message).Some? ==>
              var r := AfterDeleteTurn(s, index, message, fault);
              (forall x :: x in r.store <==> x in s.store && x.id != message.id)
              && (message in s.messages ==> message in r.messages)
  {
  }

  /** At the edge of the list there is no pair, and only the clicked message's
      rows leave the table. */
  lemma DeleteTurnAtBoundary(s: HistoryState, index: nat, message: Message)
    requires (message.isUser && index + 1 == |s.messages|) || (!message.isUser && index == 0)
    ensures PairOf(s.messages, index, message).None?
    ensures forall x :: x in AfterDeleteTurn(s, index, message, NoFault).store <==>
                        x in s.store && x.id != message.id
  {
  }

  /** The pair is taken by position alone: with two user messages in a row,
      deleting the first also deletes the second. */
  lemma PairIgnoresAuthor()
    ensures var first := Message(1, "first question", true, 100);
            var second := Message(2, "second question", true, 200);
            PairOf([first, second], 0, first) == Some(second)
            && AfterDeleteTurn(HistoryState([first, second], [first, second]), 0, first, NoFault)
               == HistoryState([], [second])
  {
    var first := Message(1, "first question", true, 100);
    var second := Message(2, "second question", true, 200);
    var s := [first, second];
    assert s[1..] == [second] && [second][1..] == [];
    assert WithoutRow([], first) == [] && WithoutRow([second], first) == [second];
    assert WithoutRow(s, first) == [second];
    assert WithoutRow([], second) == [] && WithoutRow([second], second) == [];
    assert FilterNot([], first) == [] && FilterNot([second], first) == [second];
    assert FilterNot(s, first) == [second];
    assert PairOf(s, 0, first) == Some(second);
  }

  /** A user message followed by its answer: deleting the question empties the
      table, while the answer remains on screen. */
  lemma DeleteQuestionAndAnswer()
    ensures var question := Message(1, "hi", true, 1);
            var answer := Message(2, "hello", false, 2);
            AfterDeleteTurn(HistoryState([question, answer], [question, answer]), 0, question, NoFault)
              == HistoryState([], [answer])
  {
    var question := Message(1, "hi", true, 1);
    var answer := Message(2, "hello", false, 2);
    var s := [question, answer];
    assert s[1..] == [answer] && [answer][1..] == [];
    assert WithoutRow([], question) == [] && WithoutRow([answer], question) == [answer];
    assert WithoutRow(s, question) == [answer];
    assert WithoutRow([], answer) == [] && WithoutRow([answer], answer) == [];
    assert FilterNot([], question) == [] && FilterNot([answer], question) == [answer];
    assert FilterNot(s, question) == [answer];
    assert PairOf(s, 0, question) == Some(answer);
  }

  /** Delete-all empties both the table and the list, whatever they held. */
  lemma DeleteAllClears(s: HistoryState)
    ensures AfterDeleteAll(s).store == [] && AfterDeleteAll(s).messages == []
  {
  }

  /* ---------------------------------------------------------------------- */
  /*  The mutable table and screen                                           */
  /* ---------------------------------------------------------------------- */

  /** The persisted message table behind the screen's data-access object.
      Each operation that can hit a storage fault takes a flag saying whether
      it does; a faulting operation changes nothing. */
  class MessageDao {
    var rows: seq<Message>

    constructor (rows: seq<Message>)
      ensures this.rows == rows
    {
      this.rows := rows;
    }

    method GetAll(fails: bool) returns (r: Option<seq<Message>>)
      ensures fails <==> r.None?
      ensures r.Some? ==> r.value == rows
    {
      r := if fails then None else Some(rows);
    }

    method Delete(message: Message, fails: bool) returns (ok: bool)
      modifies this
      ensures ok == !fails
      ensures rows == if ok then WithoutRow(old(rows), message) else old(rows)
    {
      ok := !fails;
      if ok {
        rows := WithoutRow(rows, message);
      }
    }

    method DeleteAll()
      modifies this
      ensures rows == []
    {
      rows := [];
    }
  }

  /** The history screen's state: its data-access object and the local copy of
      the messages it displays. */
  class HistoryScreen {
    const dao: MessageDao
    var messages: seq<Message>

    constructor (dao: MessageDao)
      ensures this.dao == dao && messages == []
    {
      this.dao := dao;
      messages := [];
    }

    function State(): HistoryState
      reads this, dao
    {
      HistoryState(dao.rows, messages)
    }

    method LoadMessages(getAllFails: bool)
      modifies this
      ensures State() == AfterLoad(old(State()), getAllFails)
    {
      var all := dao.GetAll(getAllFails);
      if all.Some? {
        messages := all.value;
      }
    }

    method OnDeleteClick(index: nat, message: Message, fault: DeleteFault)
      modifies this, dao
      ensures State() == AfterDeleteTurn(old(State()), index, message, fault)
    {
      var pair := PairOf(messages, index, message);
      var ok := dao.Delete(message, fault == MessageDeleteFails);
      if !ok {
        return;
      }
      if pair.Some? {
        ok := dao.Delete(pair.value, fault == PairDeleteFails);
        if !ok {
          return;
        }
      }
      messages := FilterNot(messages, message);
    }

    method OnDeleteAllClick()
      modifies this, dao
      ensures State() == AfterDeleteAll(old(State()))
    {
      dao.DeleteAll();
      messages := [];
    }
  }
}
