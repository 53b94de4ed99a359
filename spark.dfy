/** The stream registry of a watcher (spark/watcher.go) and the events it
    broadcasts. With soft deletion, a store deletion is not an event, and
    an update that sets the deletion time is broadcast as a deletion. The
    tailing of the store and the broadcast to clients are not part of this
    model. */
module Spark {
  import opened Wrappers
  import opened ObjectIds
  import opened Documents

  /** The kinds of change events a store stream yields. */
  datatype EventType = Opened | Created | Updated | Deleted | Errored

  /** A stream: the name it is registered under and whether its model is
      soft-deleted. */
  datatype Stream = Stream(name: string, softDelete: bool)

  /** An event as it is broadcast. */
  datatype Event = Event(kind: EventType, id: Id, stream: string)

  function AlreadyExists(name: string): string {
    "spark: stream with name \"" + name + "\" already exists"
  }

  /** The type an event is broadcast with, or None when it is dropped;
      `deletedAt` is the soft-delete field of the changed model (None for a
      nil time, 0 for the zero time). */
  function Classify(e: EventType, softDelete: bool, deletedAt: Option<Time>): (r: Option<EventType>)
    ensures !softDelete ==> r == Some(e)
    ensures softDelete && e == Deleted ==> r == None
    ensures softDelete && e == Updated ==> r == Some(if deletedAt.Some? && deletedAt.value != 0 then Deleted else Updated)
    ensures e != Deleted && e != Updated ==> r == Some(e)
  {
    if softDelete && e == Deleted then None
    else if softDelete && e == Updated && deletedAt.Some? && deletedAt.value != 0 then Some(Deleted)
    else Some(e)
  }

  /** With soft deletion, every deletion that is broadcast is an update
      that set a non-zero deletion time, and only deletions change type. */
  lemma SoftDeletionsOnly(e: EventType, deletedAt: Option<Time>)
    ensures Classify(e, true, deletedAt) == Some(Deleted) <==> e == Updated && deletedAt.Some? && deletedAt.value != 0
    ensures Classify(e, true, deletedAt).Some? && Classify(e, true, deletedAt).value != e ==> Classify(e, true, deletedAt) == Some(Deleted)
  {
  }

  class Watcher {
    var streams: map<string, Stream>

    /** spark/watcher.go:25-35: a watcher starts with no stream. */
    constructor ()
      ensures streams == map[]
    {
      streams := map[];
    }

    /** spark/watcher.go:38-48: registers a stream under its name; a second
        stream of the same name is refused, as the source's panic. */
    method Add(stream: Stream) returns (r: Result<(), string>)
      modifies this
      ensures stream.name in old(streams) ==> r == Err(AlreadyExists(stream.name)) && streams == old(streams)
      ensures stream.name !in old(streams) ==> r == Ok(()) && streams == old(streams)[stream.name := stream]
    {
      if stream.name in streams {
        return Err(AlreadyExists(stream.name));
      }
      streams := streams[stream.name := stream];
      return Ok(());
    }

    /** spark/watcher.go:57-86: the event a change of a registered stream
        yields, if any. */
    function Deliver(name: string, e: EventType, id: Id, deletedAt: Option<Time>): (r: Option<Event>)
      reads this
      requires name in streams
      ensures r.Some? ==> r.value.id == id && r.value.stream == name
      ensures r.Some? <==> Classify(e, streams[name].softDelete, deletedAt).Some?
      ensures r.Some? ==> r.value.kind == Classify(e, streams[name].softDelete, deletedAt).value
    {
      match Classify(e, streams[name].softDelete, deletedAt)
      case None => None
      case Some(kind) => Some(Event(kind, id, name))
    }
  }
}
