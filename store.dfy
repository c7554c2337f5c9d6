/** The collaborators the job drives: the document collection (count,
    streaming cursor, point update) and the file system holding the logs.
    Their answers are fixed up front, so a run of the job is determined
    by them. */
module Store {
  import opened Values
  import Filter

  /** What `updateOne` does: throws, or acknowledges with a `modifiedCount`. */
  datatype UpdateReply = Threw(error: string) | Acknowledged(modifiedCount: int)

  /** How a cursor's stream ends once its documents are used up: it
      reports the end, or fetching the next document throws. */
  datatype CursorEnd = Exhausted | Failed(error: string)

  /** The result of asking a cursor for its next document. */
  datatype Fetch = Yield(doc: Record) | Done | Fault(error: string)

  /** A streaming cursor over a query: yields `docs` in order, then ends
      as `end` says. */
  class Cursor {
    const docs: seq<Record>
    const end: CursorEnd
    var pos: nat
    var closed: bool

    predicate Valid()
      reads this
    {
      pos <= |docs|
    }

    constructor (docs: seq<Record>, end: CursorEnd)
      ensures this.docs == docs && this.end == end
      ensures pos == 0 && !closed
    {
      this.docs := docs;
      this.end := end;
      pos := 0;
      closed := false;
    }

    /** One step of `for await`: the next document, the end of the stream,
        or the error fetching throws. */
    method Next() returns (f: Fetch)
      requires Valid() && !closed
      modifies this`pos
      ensures Valid()
      ensures old(pos) < |docs| ==> f == Yield(docs[old(pos)]) && pos == old(pos) + 1
      ensures old(pos) == |docs| ==> pos == old(pos)
      ensures old(pos) == |docs| ==> f == (if end.Exhausted? then Done else Fault(end.error))
    {
      if pos < |docs| {
        f := Yield(docs[pos]);
        pos := pos + 1;
      } else if end.Exhausted? {
        f := Done;
      } else {
        f := Fault(end.error);
      }
    }

    method Close()
      modifies this`closed
      ensures closed
    {
      closed := true;
    }
  }

  /** The job collection, as seen through one query: `total` is what
      counting the query's matches answers, `stream` and `streamEnd` what
      a cursor over it yields, and `replies[n]` what the n-th `updateOne`
      call answers. The count and the cursor are separate queries, so
      nothing ties `total` to `|stream|`. */
  class Collection {
    const query: seq<Filter.Clause>
    const total: nat
    const stream: seq<Record>
    const streamEnd: CursorEnd
    const replies: seq<UpdateReply>
    /** The `_id` of every `updateOne` call so far, in order. */
    var updateCalls: seq<string>
    /** The cursor `find` opened, if any. */
    var cursor: Cursor?

    constructor (query: seq<Filter.Clause>, total: nat, stream: seq<Record>, streamEnd: CursorEnd, replies: seq<UpdateReply>)
      ensures this.query == query && this.total == total && this.stream == stream
      ensures this.streamEnd == streamEnd && this.replies == replies
      ensures updateCalls == [] && cursor == null
    {
      this.query := query;
      this.total := total;
      this.stream := stream;
      this.streamEnd := streamEnd;
      this.replies := replies;
      updateCalls := [];
      cursor := null;
    }

    method CountDocuments(filter: seq<Filter.Clause>) returns (n: nat)
      requires filter == query
      ensures n == total
    {
      n := total;
    }

    method Find(filter: seq<Filter.Clause>) returns (c: Cursor)
      requires filter == query
      modifies this`cursor
      ensures fresh(c) && cursor == c
      ensures c.docs == stream && c.end == streamEnd && c.pos == 0 && !c.closed
    {
      c := new Cursor(stream, streamEnd);
      cursor := c;
    }

    method UpdateOne(id: string) returns (reply: UpdateReply)
      requires |updateCalls| < |replies|
      modifies this`updateCalls
      ensures reply == replies[|old(updateCalls)|]
      ensures updateCalls == old(updateCalls) + [id]
    {
      reply := replies[|updateCalls|];
      updateCalls := updateCalls + [id];
    }
  }

  /** The local file system: file name to contents. */
  class FileSystem {
    var files: map<string, string>

    constructor (files: map<string, string>)
      ensures this.files == files
    {
      this.files := files;
    }

    /** The contents of a file; a file that does not exist reads as empty. */
    function Read(name: string): string
      reads this
    {
      if name in files then files[name] else ""
    }

    /** `fs.writeFileSync`: replaces the contents. */
    method WriteFileSync(name: string, text: string)
      modifies this
      ensures files == old(files)[name := text]
    {
      files := files[name := text];
    }

    /** `fs.appendFileSync`: adds to the end, creating the file if needed. */
    method AppendFileSync(name: string, text: string)
      modifies this
      ensures files == old(files)[name := old(Read(name)) + text]
    {
      files := files[name := Read(name) + text];
    }
  }
}
