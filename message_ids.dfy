/** The process-wide counter that hands out message ids. */
module MessageIds {

  class MessageIdCounter {
    /** The next id to hand out. */
    var msgID: nat

    constructor ()
      ensures msgID == 0
    {
      msgID := 0;
    }

    /** getNewMessageID: return the current value and advance the counter by
        one, so every id handed out is above all earlier ones. */
    method GetNewMessageID() returns (id: nat)
      modifies this
      ensures id == old(msgID)
      ensures msgID == old(msgID) + 1
    {
      id := msgID;
      msgID := msgID + 1;
    }
  }

  /** Two ids drawn one after the other differ, the later one being larger. */
  method SuccessiveIdsIncrease(counter: MessageIdCounter) returns (first: nat, second: nat)
    modifies counter
    ensures first < second
    ensures first == old(counter.msgID) && counter.msgID == old(counter.msgID) + 2
  {
    first := counter.GetNewMessageID();
    second := counter.GetNewMessageID();
  }
}
