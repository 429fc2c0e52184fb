/** From the client's timeline numbers to the console's two views: the numbers the client draws decide
    whether replaying a turn shows what its events showed as they arrived. */
module TimelineDelivery {
  import opened Text
  import opened TimelineModel
  import opened TimelineReplay
  import Numbering = TimelineNumbering

  /** The numbers on the events of a turn, in order. */
  function Sequences(events: seq<Event>, turnID: Option<string>): seq<int> {
    if events == [] then []
    else
      var init, last := events[..|events| - 1], events[|events| - 1];
      Sequences(init, turnID) + if last.turnID == turnID then [last.sequence] else []
  }

  predicate Ascend(numbers: seq<int>) {
    forall i, j :: 0 <= i < j < |numbers| ==> numbers[i] <= numbers[j]
  }

  lemma {:induction false} SequencesHave(events: seq<Event>, turnID: Option<string>, k: nat)
    requires k < |events| && events[k].turnID == turnID
    ensures exists i :: 0 <= i < |Sequences(events, turnID)| && Sequences(events, turnID)[i] == events[k].sequence
  {
    var init := events[..|events| - 1];
    if k < |init| {
      SequencesHave(init, turnID, k);
      var i :| 0 <= i < |Sequences(init, turnID)| && Sequences(init, turnID)[i] == events[k].sequence;
      assert Sequences(events, turnID)[i] == events[k].sequence;
    } else {
      assert Sequences(events, turnID)[|Sequences(init, turnID)|] == events[k].sequence;
    }
  }

  lemma {:induction false} AscendingSequences(events: seq<Event>, turnID: Option<string>)
    requires Ascend(Sequences(events, turnID))
    ensures AscendingWithin(events, turnID)
  {
    if events != [] {
      var n := |events| - 1;
      var init, all := events[..n], Sequences(events, turnID);
      var before := Sequences(init, turnID);
      assert forall i :: 0 <= i < |before| ==> before[i] == all[i];
      AscendingSequences(init, turnID);
      forall i | 0 <= i < n && events[i].turnID == events[n].turnID == turnID
        ensures events[i].sequence <= events[n].sequence
      {
        SequencesHave(init, turnID, i);
        var k :| 0 <= k < |before| && before[k] == init[i].sequence;
        assert all[k] <= all[|before|];
      }
      forall i, j | 0 <= i < j < |events| && events[i].turnID == events[j].turnID == turnID
        ensures events[i].sequence <= events[j].sequence
      {
        assert j < n ==> init[i].sequence <= init[j].sequence;
      }
    }
  }

  /** A console that gets a turn's events as the client showed them shows the same messages of it live
      and after a replay, in every run in which none of them is overtaken between the drawing of its
      number and its own showing, and those of different lives of the turn ascend. */
  lemma InTurnReplaysAsLive(w: Numbering.World, steps: seq<Numbering.Step>, v: Numbering.World, turnID: Bytes,
                            events: seq<Event>, turnOf: TurnOf)
    requires Numbering.Begins(w, turnID) && Numbering.Reaches(w, steps, v)
    requires var marks := Numbering.Marks(v.shown, turnID);
             Numbering.NoneOvertaken(marks) && Numbering.LivesAscend(marks)
    requires AllBelong(events, turnOf)
    requires Sequences(events, Some(turnID)) == Numbering.NumbersOf(Numbering.Marks(v.shown, turnID))
    ensures Share(Replayed(events), Some(turnID)) == Share(Fold([], events), Some(turnID))
  {
    Numbering.NumbersAscendIff(w, steps, v, turnID);
    AscendingSequences(events, Some(turnID));
    ReplayEqualsLive(events, Some(turnID), turnOf);
  }
}
