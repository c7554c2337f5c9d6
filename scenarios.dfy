/** Concrete runs: single documents through the recomputation rule and a
    store that applies it, and whole runs with an update that throws and
    with a cursor that fails part-way. */
module Scenarios {
  import opened Values
  import Filter
  import Pipeline
  import opened Store
  import opened Remediation

  /** `{_id: 1, job_id: 7, client_code: 3, num_search: ""}` is a
      candidate; the rule gives it `"j7c3"`, and the update counts as
      updated. */
  lemma RepairedExample()
    ensures var r := Record("1", Int(7), Int(3), Str(""));
      && Filter.IsCandidate(r)
      && Pipeline.Apply(r) == Some(r.(numSearch := Str("j7c3")))
      && Classify(StoreReply(r)) == Updated
  {
    var r := Record("1", Int(7), Int(3), Str(""));
    Pipeline.RecomputationRule(r);
    assert IntToDecimal(7) == "7" && IntToDecimal(3) == "3";
    assert Pipeline.DerivedKey(r) == "j7c3";
    StoreClassification(r);
  }

  /** `{_id: 2, job_id: null, client_code: 3, num_search: ""}` is a
      candidate; the rule leaves it as it is, and the update counts as
      skipped. */
  lemma MissingSourceExample()
    ensures var r := Record("2", Null, Int(3), Str(""));
      && Filter.IsCandidate(r)
      && Pipeline.Apply(r) == Some(r)
      && Classify(StoreReply(r)) == Skipped
  {
    var r := Record("2", Null, Int(3), Str(""));
    Pipeline.RecomputationRule(r);
    StoreClassification(r);
  }

  function Doc(id: string): Record
  {
    Record(id, Int(1), Int(1), Null)
  }

  /** Five candidates, the third update throws: the other four are still
      updated and logged in cursor order, the third appears only in the
      error log, and the summary counts four updates. */
  lemma UpdateFaultExample(stream: seq<Record>, replies: seq<UpdateReply>)
    requires stream == [Doc("a"), Doc("b"), Doc("c"), Doc("d"), Doc("e")]
    requires replies == [Acknowledged(1), Acknowledged(1), Threw("E"), Acknowledged(1), Acknowledged(1)]
    ensures RunLogs(5, stream, Exhausted, replies) == Logs("a\nb\nd\ne\n", "", "c - E\n", SummaryText(5, 5, 4, 0), "")
  {
    ScanFive(stream, replies);
    UpdatedLines();
    assert Lines(["c - E"]) == "c - E\n" by {
      LinesSnoc([], "c - E");
      assert [] + ["c - E"] == ["c - E"];
    }
  }

  /** The updated logs of the two runs. */
  lemma UpdatedLines()
    ensures Lines(["a", "b"]) == "a\nb\n"
    ensures Lines(["a", "b", "d", "e"]) == "a\nb\nd\ne\n"
  {
    assert Lines(["a"]) == "a\n" by {
      LinesSnoc([], "a");
      assert [] + ["a"] == ["a"];
    }
    assert Lines(["a", "b"]) == "a\nb\n" by {
      LinesSnoc(["a"], "b");
      assert ["a"] + ["b"] == ["a", "b"];
    }
    assert Lines(["a", "b", "d"]) == "a\nb\nd\n" by {
      LinesSnoc(["a", "b"], "d");
      assert ["a", "b"] + ["d"] == ["a", "b", "d"];
    }
    assert Lines(["a", "b", "d", "e"]) == "a\nb\nd\ne\n" by {
      LinesSnoc(["a", "b", "d"], "e");
      assert ["a", "b", "d"] + ["e"] == ["a", "b", "d", "e"];
    }
  }

  /** The progress of the five-document run with the third update throwing. */
  lemma ScanFive(stream: seq<Record>, replies: seq<UpdateReply>)
    requires stream == [Doc("a"), Doc("b"), Doc("c"), Doc("d"), Doc("e")]
    requires replies == [Acknowledged(1), Acknowledged(1), Threw("E"), Acknowledged(1), Acknowledged(1)]
    ensures Scan(stream, replies) == Progress(4, 0, ["a", "b", "d", "e"], [], ["c - E"])
  {
    var p2 := Progress(2, 0, ["a", "b"], [], []);
    assert Scan(stream[..2], replies[..2]) == p2 by {
      ScanTwo(stream[..2], replies[..2]);
    }
    var p3 := Progress(2, 0, ["a", "b"], [], ["c - E"]);
    assert Scan(stream[..3], replies[..3]) == p3 by {
      ScanStep(stream, replies, 2);
      assert ErrorLine("c", "E") == "c - E";
    }
    var p4 := Progress(3, 0, ["a", "b", "d"], [], ["c - E"]);
    assert Scan(stream[..4], replies[..4]) == p4 by {
      ScanStep(stream, replies, 3);
    }
    assert Scan(stream, replies) == Progress(4, 0, ["a", "b", "d", "e"], [], ["c - E"]) by {
      ScanStep(stream, replies, 4);
      assert stream[..5] == stream && replies[..5] == replies;
    }
  }

  /** Two documents whose updates both modified a document. */
  lemma ScanTwo(stream: seq<Record>, replies: seq<UpdateReply>)
    requires |stream| == 2 && |replies| == 2
    requires replies[0] == Acknowledged(1) && replies[1] == Acknowledged(1)
    ensures Scan(stream, replies) == Progress(2, 0, [stream[0].id, stream[1].id], [], [])
  {
    ScanStep(stream, replies, 0);
    ScanStep(stream, replies, 1);
    assert stream[..0] == [] && replies[..0] == [];
    assert stream[..2] == stream && replies[..2] == replies;
  }

  /** Five candidates, fetching throws after two: the scan stops at
      two, the cursor-error log names position 2, and the summary reports
      what was done. */
  lemma CursorFaultExample(stream: seq<Record>, replies: seq<UpdateReply>)
    requires stream == [Doc("a"), Doc("b")] && replies == [Acknowledged(1), Acknowledged(1)]
    ensures RunLogs(5, stream, Failed("E"), replies)
         == Logs("a\nb\n", "", "", SummaryText(5, 2, 2, 0), CursorFaultLine(2, "E") + "\n")
  {
    ScanTwo(stream, replies);
    UpdatedLines();
    var line := CursorFaultLine(2, "E");
    assert Lines([line]) == line + "\n" by {
      LinesSnoc([], line);
      assert [] + [line] == [line];
    }
  }
}
