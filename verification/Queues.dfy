/** The queue's code: its storage together with its waiting lists and lock counts, each critical
section proved to do to the items what module QueueStorage says and to the waiting tasks what
module QueueProtocol says. */
module Queues {
  import opened Bytes
  import opened ItemLists
  import opened QueueStorage
  import P = QueueProtocol

  class MessageQueue {
    const store: Storage
    var cRxLock: int
    var cTxLock: int
    var xTasksWaitingToReceive: seq<Task>
    var xTasksWaitingToSend: seq<Task>
    var assertFailed: bool
    ghost var receiversWoken: set<Task>
    ghost var sendersWoken: set<Task>

    ghost predicate Valid()
      reads store, store.pcHead
    {
      store.Valid()
    }

    ghost function Items(): seq<Item>
      requires Valid()
      reads store, store.pcHead
    {
      store.Items()
    }

    ghost function State(): P.Queue
      reads this, store
    {
      P.Queue(store.uxLength, store.uxMessagesWaiting, cRxLock, cTxLock,
              P.Side(xTasksWaitingToReceive, receiversWoken), P.Side(xTasksWaitingToSend, sendersWoken), assertFailed)
    }

    /** xQueueGenericCreate. */
    constructor (uxQueueLength: nat, uxItemSize: nat)
      requires uxQueueLength > 0
      ensures Valid() && Items() == []
      ensures State() == P.Queue(uxQueueLength, 0, P.UNLOCKED, P.UNLOCKED, P.Side([], {}), P.Side([], {}), false)
    {
      store := new Storage(uxQueueLength, uxItemSize);
      cRxLock, cTxLock := P.UNLOCKED, P.UNLOCKED;
      xTasksWaitingToReceive, xTasksWaitingToSend := [], [];
      assertFailed := false;
      receiversWoken, sendersWoken := {}, {};
    }

    // ----- waking -----

    /** xTaskRemoveFromEventList on xTasksWaitingToReceive. */
    method RemoveReceiver()
      requires xTasksWaitingToReceive != []
      modifies `xTasksWaitingToReceive, `receiversWoken
      ensures State() == P.WakeReceiver(old(State()))
    {
      receiversWoken := receiversWoken + {xTasksWaitingToReceive[0]};
      xTasksWaitingToReceive := xTasksWaitingToReceive[1..];
    }

    method RemoveSender()
      requires xTasksWaitingToSend != []
      modifies `xTasksWaitingToSend, `sendersWoken
      ensures State() == P.WakeSender(old(State()))
    {
      sendersWoken := sendersWoken + {xTasksWaitingToSend[0]};
      xTasksWaitingToSend := xTasksWaitingToSend[1..];
    }

    // ----- the critical sections of a task -----

    /** The first critical section of xQueueGenericSend. */
    method TrySend(item: Item, xCopyPosition: CopyPosition) returns (sent: bool)
      requires Valid() && |item| == store.uxItemSize
      requires xCopyPosition == Overwrite ==> store.uxLength == 1
      modifies this, store, store.pcHead
      ensures Valid() && sent == P.CanSend(old(State()), xCopyPosition == Overwrite)
      ensures sent ==> State() == P.SendNow(old(State()), xCopyPosition == Overwrite)
      ensures sent ==> Items() == match xCopyPosition
                case SendToBack => old(Items()) + [item]
                case SendToFront => [item] + old(Items())
                case Overwrite => [item]
      ensures !sent ==> State() == old(State()) && Items() == old(Items())
    {
      sent := store.uxMessagesWaiting < store.uxLength || xCopyPosition == Overwrite;
      if sent {
        ghost var before := Items();
        store.CopyDataToQueue(item, xCopyPosition);
        CountAfter(before, Items(), item, xCopyPosition);
        if xTasksWaitingToReceive != [] {
          RemoveReceiver();
        }
      }
    }

    static lemma CountAfter(before: seq<Item>, after: seq<Item>, item: Item, xCopyPosition: CopyPosition)
      requires xCopyPosition == Overwrite ==> |before| <= 1
      requires after == match xCopyPosition
                 case SendToBack => before + [item]
                 case SendToFront => [item] + before
                 case Overwrite => [item]
      ensures |after| == if xCopyPosition == Overwrite && |before| > 0 then |before| else |before| + 1
    {
    }

    /** The first critical section of xQueueReceive. */
    method TryReceive() returns (received: bool, item: Item)
      requires Valid()
      modifies this, store
      ensures Valid() && received == (old(State()).count > 0)
      ensures received ==> State() == P.ReceiveNow(old(State())) && [item] + Items() == old(Items())
      ensures !received ==> State() == old(State()) && Items() == old(Items())
    {
      received, item := store.uxMessagesWaiting > 0, [];
      if received {
        item := store.Receive();
        if xTasksWaitingToSend != [] {
          RemoveSender();
        }
      }
    }

    /** The first critical section of xQueuePeek. */
    method TryPeek() returns (seen: bool, item: Item)
      requires Valid()
      modifies this, store`pcReadFrom, store`r
      ensures Valid() && seen == (old(State()).count > 0) && Items() == old(Items())
      ensures seen ==> State() == P.PeekNow(old(State())) && item == Items()[0]
      ensures !seen ==> State() == old(State())
    {
      seen, item := store.uxMessagesWaiting > 0, [];
      if seen {
        item := store.Peek();
        if xTasksWaitingToReceive != [] {
          RemoveReceiver();
        }
      }
    }

    // ----- interrupts -----

    /** xQueueGenericSendFromISR. */
    method SendFromISR(item: Item, xCopyPosition: CopyPosition) returns (sent: bool)
      requires Valid() && |item| == store.uxItemSize && -1 <= cTxLock <= P.LOCK_MAX
      requires xCopyPosition == Overwrite ==> store.uxLength == 1
      modifies this, store, store.pcHead
      ensures Valid() && State() == P.SendFromISR(old(State()), xCopyPosition == Overwrite)
      ensures sent == P.CanSend(old(State()), xCopyPosition == Overwrite)
      ensures Items() == if !sent then old(Items()) else match xCopyPosition
                case SendToBack => old(Items()) + [item]
                case SendToFront => [item] + old(Items())
                case Overwrite => [item]
    {
      sent := store.uxMessagesWaiting < store.uxLength || xCopyPosition == Overwrite;
      if sent {
        ghost var before := Items();
        store.CopyDataToQueue(item, xCopyPosition);
        CountAfter(before, Items(), item, xCopyPosition);
        if cTxLock == P.UNLOCKED {
          if xTasksWaitingToReceive != [] {
            RemoveReceiver();
          }
        } else if cTxLock == P.LOCK_MAX {
          assertFailed := true;
        } else {
          cTxLock := cTxLock + 1;
        }
      }
    }

    /** xQueueReceiveFromISR. */
    method ReceiveFromISR() returns (received: bool, item: Item)
      requires Valid() && -1 <= cRxLock <= P.LOCK_MAX
      modifies this, store
      ensures Valid() && State() == P.ReceiveFromISR(old(State())) && received == (old(State()).count > 0)
      ensures if received then [item] + Items() == old(Items()) else Items() == old(Items())
    {
      received, item := store.uxMessagesWaiting > 0, [];
      if received {
        item := store.Receive();
        if cRxLock == P.UNLOCKED {
          if xTasksWaitingToSend != [] {
            RemoveSender();
          }
        } else if cRxLock == P.LOCK_MAX {
          assertFailed := true;
        } else {
          cRxLock := cRxLock + 1;
        }
      }
    }

    // ----- locking -----

    /** prvLockQueue. */
    method LockQueue()
      modifies `cRxLock, `cTxLock
      ensures State() == P.Lock(old(State()))
    {
      if cRxLock == P.UNLOCKED {
        cRxLock := P.LOCKED_UNMODIFIED;
      }
      if cTxLock == P.UNLOCKED {
        cTxLock := P.LOCKED_UNMODIFIED;
      }
    }

    /** The first critical section of prvUnlockQueue. */
    method UnlockTx()
      modifies `xTasksWaitingToReceive, `receiversWoken, `cTxLock
      ensures State() == P.UnlockTx(old(State()))
    {
      var left := cTxLock;
      while left > P.LOCKED_UNMODIFIED
        invariant cTxLock == old(cTxLock)
        invariant P.WakeUpTo(State().receivers, left) == P.WakeUpTo(old(State()).receivers, cTxLock)
      {
        if xTasksWaitingToReceive != [] {
          RemoveReceiver();
        } else {
          break;
        }
        left := left - 1;
      }
      cTxLock := P.UNLOCKED;
    }

    /** The second critical section of prvUnlockQueue. */
    method UnlockRx()
      modifies `xTasksWaitingToSend, `sendersWoken, `cRxLock
      ensures State() == P.UnlockRx(old(State()))
    {
      var left := cRxLock;
      while left > P.LOCKED_UNMODIFIED
        invariant cRxLock == old(cRxLock)
        invariant P.WakeUpTo(State().senders, left) == P.WakeUpTo(old(State()).senders, cRxLock)
      {
        if xTasksWaitingToSend != [] {
          RemoveSender();
          left := left - 1;
        } else {
          break;
        }
      }
      cRxLock := P.UNLOCKED;
    }
  }
}
