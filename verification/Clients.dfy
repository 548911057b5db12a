/** src/client/client.cpp: the sending half of a client, as values and in place. */
module Clients {
  import opened Common
  import PacketText

  /**
    `hand` is a text popped but not yet sent; `awaiting` says that the consumer thread is at
    pthread_mutex_lock(mutex_ack); `acked` is that mutex, used as a flag that an ACK unlocks.
    */
  datatype Sender = Sender(queue: seq<string>, hand: Option<string>, awaiting: bool, acked: bool)

  const NEW_SENDER := Sender([], None, false, false)

  function Typed(s: Sender, input: string): Sender {
    s.(queue := s.queue + [PacketText.Cut(input)])
  }

  predicate CanPop(s: Sender) { s.queue != [] && s.hand.None? && !s.awaiting }

  function Popped(s: Sender): Sender
    requires CanPop(s)
  {
    s.(queue := s.queue[1..], hand := Some(s.queue[0]))
  }

  function SentOut(s: Sender): Sender
    requires s.hand.Some?
  {
    s.(hand := None, awaiting := true)
  }

  function AckReceived(s: Sender): Sender { s.(acked := true) }

  predicate CanGoOn(s: Sender) { s.awaiting && s.acked }

  function GoneOn(s: Sender): Sender
    requires CanGoOn(s)
  {
    s.(awaiting := false, acked := false)
  }

  class Client {
    var messagesQueue: seq<string>
    var message: Option<string>
    var awaitingAck: bool
    var mutexAckUnlocked: bool

    ghost function View(): Sender
      reads this
    {
      Sender(messagesQueue, message, awaitingAck, mutexAckUnlocked)
    }

    constructor ()
      ensures View() == NEW_SENDER
    {
      messagesQueue, message, awaitingAck, mutexAckUnlocked := [], None, false, false;
    }

    /** sendToServer: cut the input to the size of a packet and queue it. */
    method SendToServer(input: string)
      modifies this
      ensures View() == Typed(old(View()), input)
    {
      messagesQueue := messagesQueue + [PacketText.Cut(input)];
    }

    /** One round of consumeMessagesToSendQueue up to the wait for the ACK; None if the queue is empty. */
    method SendNext() returns (sent: Option<string>)
      requires message.None? && !awaitingAck
      modifies this
      ensures if old(messagesQueue) == [] then sent == None && View() == old(View())
              else sent == Some(old(messagesQueue)[0]) && View() == SentOut(Popped(old(View())))
    {
      if messagesQueue == [] {
        return None;
      }
      sent := Some(messagesQueue[0]);
      messagesQueue := messagesQueue[1..];
      awaitingAck := true;
    }

    method ReceiveAck()
      modifies this
      ensures View() == AckReceived(old(View()))
    {
      mutexAckUnlocked := true;
    }

    /** The wait itself: returns whether the consumer may go on to the next message. */
    method TryAck() returns (ready: bool)
      modifies this
      ensures ready == CanGoOn(old(View())) && View() == if ready then GoneOn(old(View())) else old(View())
    {
      ready := awaitingAck && mutexAckUnlocked;
      if ready {
        awaitingAck, mutexAckUnlocked := false, false;
      }
    }
  }
}
