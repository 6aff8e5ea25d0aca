/** The mutable message and the loops that copy it to and from a JSON array. */
module Messages {
  import opened Faults
  import opened JsonValues
  import Protocol

  class Message {
    var fields: array<Json>

    ghost function Contents(): seq<Json>
      reads this, fields
    {
      fields[..]
    }

    /** A message of null fields. */
    constructor (numFields: nat)
      ensures fresh(fields) && |Contents()| == numFields
      ensures forall i :: 0 <= i < numFields ==> Contents()[i] == JNull
    {
      fields := new Json[numFields](_ => JNull);
    }

    /** The move constructor takes the fields and leaves none behind. */
    constructor Move(other: Message)
      modifies other
      ensures Contents() == old(other.Contents()) && fields == old(other.fields)
      ensures other.Contents() == [] && fresh(other.fields)
    {
      fields := other.fields;
      new;
      other.fields := new Json[0];
    }

    /** Move assignment; assigning a message to itself changes nothing. */
    method Assign(other: Message)
      modifies this, other
      ensures Contents() == old(other.Contents())
      ensures other != this ==> other.Contents() == []
      ensures other == this ==> fields == old(fields)
    {
      if this == other {
        return;
      }
      fields := other.fields;
      other.fields := new Json[0];
    }

    method GetField(index: nat) returns (r: Result<Json>)
      ensures r == Field(Contents(), index)
    {
      if index >= fields.Length {
        return Err(OutOfRange);
      }
      return Ok(fields[index]);
    }

    method SetField(index: nat, j: Json) returns (out: Outcome)
      modifies fields
      ensures index < fields.Length ==> out == Done && Contents() == old(Contents())[index := j]
      ensures index >= fields.Length ==> out == Threw(OutOfRange) && Contents() == old(Contents())
    {
      if index >= fields.Length {
        return Threw(OutOfRange);
      }
      fields[index] := j;
      return Done;
    }

    method Size() returns (n: nat)
      ensures n == |Contents()|
    {
      n := fields.Length;
    }
  }

  /** The copy loop of WebSocketTransport::SendMessage. */
  method ToArray(message: Message) returns (j: Protocol.JsonArray)
    ensures fresh(j) && j.items == message.Contents()
  {
    j := new Protocol.JsonArray();
    var size := message.Size();
    var i := 0;
    while i < size
      invariant 0 <= i <= size == message.fields.Length
      invariant j.items == message.Contents()[..i]
    {
      var field := message.GetField(i);
      j.PushBack(field.value);
      i := i + 1;
    }
  }

  /** The copy loop of WebSocketTransport::RecvMessage; no SetField in it is out of range. */
  method FromArray(items: seq<Json>) returns (message: Message, out: Outcome)
    ensures fresh(message) && fresh(message.fields)
    ensures message.Contents() == items && out == Done
  {
    message := new Message(|items|);
    out := Done;
    var i := 0;
    while i < |items|
      invariant 0 <= i <= |items| == message.fields.Length
      invariant fresh(message.fields)
      invariant message.Contents()[..i] == items[..i] && out == Done
    {
      out := message.SetField(i, items[i]);
      i := i + 1;
    }
  }

  /** Sent and received again, a message has the same fields in the same order. */
  method RoundTrip(message: Message) returns (copy: Message)
    ensures fresh(copy) && copy.Contents() == message.Contents()
  {
    var j := ToArray(message);
    var out;
    copy, out := FromArray(j.items);
  }

  /** Received and sent again, an array is the same array. */
  method ArrayRoundTrip(items: seq<Json>) returns (j: Protocol.JsonArray)
    ensures fresh(j) && j.items == items
  {
    var message, out := FromArray(items);
    j := ToArray(message);
  }
}
