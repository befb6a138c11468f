/**
 * The roster text the team builds from its members: one line
 * `- name: instructions` per member, used in the leader's instructions and in
 * each member's team description.
 */
module TeamText {

  /** What a roster line shows of a member. */
  datatype MemberEntry = MemberEntry(name: string, instructions: string)

  /** The line `f"- {name}: {instructions}\n"`. */
  function Line(e: MemberEntry): string {
    "- " + e.name + ": " + e.instructions + "\n"
  }

  /** One line per entry, in order. */
  function Lines(es: seq<MemberEntry>): string
  {
    if es == [] then "" else Lines(es[..|es| - 1]) + Line(es[|es| - 1])
  }

  /** The entries other than the one at index `i`, as the membership loop visits them. */
  function Others(es: seq<MemberEntry>, i: nat): seq<MemberEntry>
  {
    if es == [] then []
    else Others(es[..|es| - 1], i) + (if |es| - 1 == i then [] else [es[|es| - 1]])
  }

  /** Roster text of two lists laid end to end is the two rosters laid end to end. */
  lemma {:induction false} LinesAppend(a: seq<MemberEntry>, b: seq<MemberEntry>)
    ensures Lines(a + b) == Lines(a) + Lines(b)
  {
    if b == [] {
      assert a + b == a;
    } else {
      assert (a + b)[..|a + b| - 1] == a + b[..|b| - 1];
      LinesAppend(a, b[..|b| - 1]);
    }
  }

  /** Skipping an index past the end skips nothing. */
  lemma {:induction false} OthersBeyond(es: seq<MemberEntry>, i: nat)
    requires |es| <= i
    ensures Others(es, i) == es
  {
    if es != [] {
      OthersBeyond(es[..|es| - 1], i);
    }
  }

  /** The membership loop keeps every entry except the one at `i`, in order. */
  lemma {:induction false} OthersSkipsSelf(es: seq<MemberEntry>, i: nat)
    requires i < |es|
    ensures Others(es, i) == es[..i] + es[i + 1..]
  {
    var init := es[..|es| - 1];
    if i == |es| - 1 {
      OthersBeyond(init, i);
    } else {
      OthersSkipsSelf(init, i);
      assert init[..i] == es[..i];
      assert init[i + 1..] + [es[|es| - 1]] == es[i + 1..];
    }
  }

  /** The loop of `create_team_leader`: the leader's instructions followed by one line per member, in order. */
  method AppendRoster(instructions: string, es: seq<MemberEntry>) returns (text: string)
    ensures text == instructions + Lines(es)
  {
    text := instructions;
    for i := 0 to |es|
      invariant text == instructions + Lines(es[..i])
    {
      LinesSnoc(es[..i], es[i]);
      assert es[..i + 1] == es[..i] + [es[i]];
      text := text + Line(es[i]);
    }
    assert es[..|es|] == es;
  }

  /**
   * The inner loop of `assemble_team`: the description of member `i` lists
   * every member before it and every member after it, in insertion order,
   * and not member `i` itself.
   */
  method DescribeOthers(es: seq<MemberEntry>, i: nat) returns (description: string)
    requires i < |es|
    ensures description == Lines(es[..i]) + Lines(es[i + 1..])
    ensures |description| == |Lines(es)| - |Line(es[i])|
  {
    description := "";
    for j := 0 to |es|
      invariant description == Lines(Others(es[..j], i))
    {
      assert es[..j + 1][..j] == es[..j];
      if j != i {
        assert Others(es[..j + 1], i) == Others(es[..j], i) + [es[j]];
        LinesSnoc(Others(es[..j], i), es[j]);
        description := description + Line(es[j]);
      } else {
        assert Others(es[..j + 1], i) == Others(es[..j], i);
      }
    }
    assert es[..|es|] == es;
    OthersDescription(es, i);
  }

  /** The roster of the others is the roster before `i` followed by the roster after it, one line shorter. */
  lemma {:induction false} OthersDescription(es: seq<MemberEntry>, i: nat)
    requires i < |es|
    ensures Lines(Others(es, i)) == Lines(es[..i]) + Lines(es[i + 1..])
    ensures |Lines(Others(es, i))| == |Lines(es)| - |Line(es[i])|
  {
    var before, after := es[..i], es[i + 1..];
    assert before + [es[i]] + after == es;
    OthersSkipsSelf(es, i);
    LinesAppend(before, after);
    LinesSnoc(before, es[i]);
    LinesAppend(before + [es[i]], after);
    assert Lines(es) == Lines(before) + Line(es[i]) + Lines(after);
  }

  /** Adding one entry adds its line at the end. */
  lemma {:induction false} LinesSnoc(es: seq<MemberEntry>, e: MemberEntry)
    ensures Lines(es + [e]) == Lines(es) + Line(e)
  {
    assert (es + [e])[..|es|] == es;
  }
}
