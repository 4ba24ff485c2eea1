/** Component separation of a whole-blood unit
    (src/components/common/ComponentModal.jsx): a checkbox per component,
    and a request listing the checked ones in display order. */
module ComponentSeparation {
  import opened Wrappers
  import Seqs

  const PackedRedCells := "Packed Red Cells"
  const Plasma := "Plasma"
  const Platelets := "Platelets"

  /** The three components in the key order of the `components` object. */
  const Keys: seq<string> := [PackedRedCells, Plasma, Platelets]

  /** The `components` state: one checkbox per key. */
  datatype Components = Components(packedRedCells: bool, plasma: bool, platelets: bool)

  /** Red cells and plasma are checked by default, platelets are not. */
  const Defaults := Components(true, true, false)

  /** `components[key]`; a name outside the three keys is never checked. */
  function Checked(c: Components, key: string): bool {
    if key == PackedRedCells then c.packedRedCells
    else if key == Plasma then c.plasma
    else if key == Platelets then c.platelets
    else false
  }

  /** `Object.keys(components).filter(k => components[k])`: the checked keys,
      in key order. */
  function Selected(c: Components): (r: seq<string>)
    ensures forall k :: k in r <==> k in Keys && Checked(c, k)
    ensures |r| <= 3
    ensures forall i, j :: 0 <= i < j < |r| ==> r[i] != r[j]
    ensures Seqs.IsSubsequence(r, Keys)
  {
    var last := if c.platelets then [Platelets] else [];
    var tail := (if c.plasma then [Plasma] else []) + last;
    KeepOrSkip(c.platelets, Platelets, [], [Platelets]);
    assert [Plasma, Platelets][1..] == [Platelets];
    KeepOrSkip(c.plasma, Plasma, last, [Plasma, Platelets]);
    assert Keys[1..] == [Plasma, Platelets];
    KeepOrSkip(c.packedRedCells, PackedRedCells, tail, Keys);
    (if c.packedRedCells then [PackedRedCells] else []) + tail
  }

  /** Keeping or skipping the head of `ys` in front of a subsequence of its
      tail gives a subsequence of `ys`. */
  lemma KeepOrSkip(keep: bool, k: string, t: seq<string>, ys: seq<string>)
    requires ys != [] && ys[0] == k && Seqs.IsSubsequence(t, ys[1..])
    ensures Seqs.IsSubsequence((if keep then [k] else []) + t, ys)
  {
    if keep {
      assert ([k] + t)[0] == k && ([k] + t)[1..] == t;
    } else {
      assert [] + t == t;
      Seqs.SubsequenceOfTail(t, ys);
    }
  }

  /** `{...components, [key]: checked}`: only the named box changes. */
  function SetChecked(c: Components, key: string, checked: bool): (d: Components)
    requires key in Keys
    ensures Checked(d, key) == checked
    ensures forall k :: k != key ==> Checked(d, k) == Checked(c, k)
  {
    if key == PackedRedCells then c.(packedRedCells := checked)
    else if key == Plasma then c.(plasma := checked)
    else c.(platelets := checked)
  }

  /** The defaults ask for red cells and plasma. */
  lemma DefaultSelection()
    ensures Selected(Defaults) == [PackedRedCells, Plasma]
  {
  }

  /** `processComponents({unitId, components})`. */
  datatype ProcessCall = ProcessCall(unitId: string, components: seq<string>)

  datatype ProcessDecision = NothingSelected | Process(call: ProcessCall, count: nat)

  /** `handleProcess`: refuse when nothing is checked, otherwise send the
      checked keys and report how many there are. */
  function HandleProcess(unitId: string, c: Components): (d: ProcessDecision)
    ensures d.NothingSelected? <==> forall k :: k in Keys ==> !Checked(c, k)
    ensures d.Process? ==> d.call.unitId == unitId && d.count == |d.call.components| > 0
    ensures d.Process? ==> forall k :: k in d.call.components <==> k in Keys && Checked(c, k)
  {
    var selected := Selected(c);
    if |selected| == 0 then
      assert forall k :: k in Keys ==> !Checked(c, k) by {
        forall k | k in Keys ensures !Checked(c, k) {
          assert k !in selected;
        }
      }
      NothingSelected
    else
      assert selected[0] in Keys && Checked(c, selected[0]);
      Process(ProcessCall(unitId, selected), |selected|)
  }

  /** The label of the process button. */
  function ProcessLabel(loading: bool): (s: string)
    ensures loading <==> s == "Processing..."
    ensures !loading <==> s == "Confirm & Split Bag"
  {
    if loading then "Processing..." else "Confirm & Split Bag"
  }

  /** The modal's state: the checkboxes and `loading`. */
  class ComponentForm {
    const unitId: string
    var components: Components
    var loading: bool

    constructor (unitId: string)
      ensures this.unitId == unitId && components == Defaults && !loading
    {
      this.unitId := unitId;
      components := Defaults;
      loading := false;
    }

    /** A checkbox's `onChange`. */
    method OnCheckboxChange(key: string, checked: bool)
      requires key in Keys
      modifies this`components
      ensures components == SetChecked(old(components), key, checked)
    {
      components := SetChecked(components, key, checked);
    }

    /** The current decision of the "Process" button. */
    function Decision(): (d: ProcessDecision)
      reads this
      ensures d.NothingSelected? <==> !components.packedRedCells && !components.plasma && !components.platelets
      ensures d.Process? ==> d.call == ProcessCall(unitId, Selected(components))
    {
      HandleProcess(unitId, components)
    }

    /** A press of the process button, up to the `await` of
        `processComponents`: nothing while a call is pending (the button is
        disabled); otherwise the decision, and a call actually sent leaves
        the form loading. */
    method Press() returns (d: Option<ProcessDecision>)
      modifies this`loading
      ensures d == if old(loading) then None else Some(Decision())
      ensures loading == (old(loading) || (d.Some? && d.value.Process?))
    {
      if loading {
        return None;
      }
      d := Some(HandleProcess(unitId, components));
      if d.value.Process? {
        loading := true;
      }
    }

    /** The `finally` of `handleProcess` once the server has answered. */
    method OnProcessSettled()
      modifies this`loading
      ensures !loading
    {
      loading := false;
    }
  }

  /** Splitting a bag with the defaults: the first press sends red cells and
      plasma; while that call is pending the button reads "Processing..." and
      a second press sends nothing; after the answer the button works again.
      Clearing every box makes the next press a refusal that sends nothing. */
  method SplitScenario(unitId: string)
    returns (first: Option<ProcessDecision>, pendingLabel: string, second: Option<ProcessDecision>,
             refused: Option<ProcessDecision>, loadingAfterRefusal: bool)
    ensures first == Some(Process(ProcessCall(unitId, [PackedRedCells, Plasma]), 2))
    ensures pendingLabel == "Processing..." && second == None
    ensures refused == Some(NothingSelected) && !loadingAfterRefusal
  {
    var form := new ComponentForm(unitId);
    DefaultSelection();
    first := form.Press();
    pendingLabel := ProcessLabel(form.loading);
    second := form.Press();
    form.OnProcessSettled();
    form.OnCheckboxChange(PackedRedCells, false);
    form.OnCheckboxChange(Plasma, false);
    refused := form.Press();
    loadingAfterRefusal := form.loading;
  }
}
