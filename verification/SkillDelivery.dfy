/** Placement of delivered skill guidance (src/engine/skill-delivery.ts). */
module SkillDelivery {
  import opened Prelude
  import opened ConversationTypes
  import opened Containment
  import T = Text

  function BlockOf(d: OverlayEvent): string {
    FormatConnectorSkillBlock(d.skillName, d.scope, d.skillBody, d.heldToolCallId.Some?)
  }

  // ------------------------------------------------------------------ placement

  /** The deliveries each tool result carries, keyed by call id, in delivery order. */
  type Guidance = map<string, seq<OverlayEvent>>

  /** The tool call whose result carries `d`: the call it held, else the iteration's last call. */
  function Target(ids: seq<string>, d: OverlayEvent): (t: string)
    requires ids != []
    ensures t in ids
  {
    if d.heldToolCallId.Some? && d.heldToolCallId.value in ids then d.heldToolCallId.value else ids[|ids| - 1]
  }

  function GuidanceByToolCall(ids: seq<string>, ds: seq<OverlayEvent>): Guidance {
    if ids == [] || ds == [] then map[]
    else
      var before := GuidanceByToolCall(ids, ds[..|ds| - 1]);
      var target := Target(ids, ds[|ds| - 1]);
      before[target := (if target in before then before[target] else []) + [ds[|ds| - 1]]]
  }

  method PlaceGuidance(toolCallIds: seq<string>, deliveries: seq<OverlayEvent>) returns (byCall: Guidance)
    ensures byCall == GuidanceByToolCall(toolCallIds, deliveries)
  {
    byCall := map[];
    if |toolCallIds| == 0 {
      return;
    }
    for i := 0 to |deliveries|
      invariant byCall == GuidanceByToolCall(toolCallIds, deliveries[..i])
    {
      assert deliveries[..i + 1][..i] == deliveries[..i];
      var target := Target(toolCallIds, deliveries[i]);
      var carried := if target in byCall then byCall[target] else [];
      byCall := byCall[target := carried + [deliveries[i]]];
    }
    assert deliveries[..|deliveries|] == deliveries;
  }

  /** The deliveries among `ds` that belong with call `id`. */
  function CarriedBy(ids: seq<string>, ds: seq<OverlayEvent>, id: string): seq<OverlayEvent>
    requires ids != []
  {
    if ds == [] then []
    else if Target(ids, ds[0]) == id then [ds[0]] + CarriedBy(ids, ds[1..], id)
    else CarriedBy(ids, ds[1..], id)
  }

  lemma {:induction false} CarriedByConcat(ids: seq<string>, a: seq<OverlayEvent>, b: seq<OverlayEvent>, id: string)
    requires ids != []
    ensures CarriedBy(ids, a + b, id) == CarriedBy(ids, a, id) + CarriedBy(ids, b, id)
  {
    if a == [] {
      assert a + b == b;
    } else {
      assert (a + b)[1..] == a[1..] + b;
      CarriedByConcat(ids, a[1..], b, id);
    }
  }

  /** The map holds, for exactly the calls that carry something, the deliveries they carry, in order. */
  lemma {:induction false} GuidanceIsCarried(ids: seq<string>, ds: seq<OverlayEvent>, id: string)
    requires ids != []
    ensures id in GuidanceByToolCall(ids, ds) <==> CarriedBy(ids, ds, id) != []
    ensures id in GuidanceByToolCall(ids, ds) ==> GuidanceByToolCall(ids, ds)[id] == CarriedBy(ids, ds, id)
  {
    if ds != [] {
      var before, d := ds[..|ds| - 1], ds[|ds| - 1];
      assert ds == before + [d];
      GuidanceIsCarried(ids, before, id);
      CarriedByConcat(ids, before, [d], id);
    }
  }

  function Blocks(block: OverlayEvent -> string, ds: seq<OverlayEvent>): seq<string> {
    if ds == [] then [] else [block(ds[0])] + Blocks(block, ds[1..])
  }

  function Skills(ds: seq<OverlayEvent>): (names: seq<string>)
    ensures |names| == |ds| && forall i :: 0 <= i < |ds| ==> names[i] == ds[i].skillName
  {
    if ds == [] then [] else [ds[0].skillName] + Skills(ds[1..])
  }

  /** A tool result with its guidance, rendered by `block`, after its own text. */
  function WithGuidance(block: OverlayEvent -> string, part: Part, ds: seq<OverlayEvent>): Part
    requires part.ToolResult?
  {
    if ds == [] then part else part.(output := T.Join([part.output] + Blocks(block, ds), "\n\n"))
  }
}
