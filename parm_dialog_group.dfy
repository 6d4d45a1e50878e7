/** One parameter of the parameter-file dialog: a checkbox that comments the
    parameter out or in, the control holding its value, the groups enabled
    and disabled together with it, and the groups that are turned the other
    way when it is turned on or off. */
module ParmDialogGroup {

  class Group {
    /** The descriptor's commented flag. */
    var commented: bool
    /** The checkbox: selected, and enabled for the user. */
    var checked: bool
    var checkEnabled: bool
    /** Whether the main control is enabled. */
    var mainEnabled: bool
    /** Groups switched on and off in concert with this one. */
    var others: seq<Group>
    /** Groups switched the opposite way. */
    var exclusives: seq<Group>

    /** `init`: the checkbox is selected and the main control enabled
        exactly when the descriptor is not commented; no linked groups. */
    constructor(descCommented: bool)
      ensures commented == descCommented
      ensures checked == !descCommented && mainEnabled == !descCommented && checkEnabled
      ensures others == [] && exclusives == []
    {
      others := [];
      exclusives := [];
      commented := descCommented;
      checked := !descCommented;
      checkEnabled := true;
      new;
      ConfigureMain();
    }

    /** `configure()`: the main control is enabled iff the parameter is not
        commented. */
    method ConfigureMain()
      modifies this
      ensures mainEnabled == !commented
      ensures commented == old(commented) && checked == old(checked) && checkEnabled == old(checkEnabled)
      ensures others == old(others) && exclusives == old(exclusives)
    {
      mainEnabled := !commented;
    }

    /** `configure(newState)`: turns this group on (`newState`) or off. Only
        this group changes: its linked groups are not visited. */
    method Configure(newState: bool)
      modifies this
      ensures commented == !newState && checked == newState && mainEnabled == newState
      ensures checkEnabled == old(checkEnabled)
      ensures others == old(others) && exclusives == old(exclusives)
    {
      commented := !newState;
      checked := newState;
      ConfigureMain();
    }

    /** Adds mutually exclusive groups; no state changes. */
    method SetExclusive(groups: seq<Group>)
      modifies this
      ensures exclusives == old(exclusives) + groups
      ensures others == old(others)
      ensures commented == old(commented) && checked == old(checked)
      ensures mainEnabled == old(mainEnabled) && checkEnabled == old(checkEnabled)
    {
      exclusives := exclusives + groups;
    }

    /** Adds grouped groups, each of which gets its checkbox disabled. */
    method SetGrouped(groups: seq<Group>)
      modifies this, set g | g in groups
      ensures others == old(others) + groups
      ensures exclusives == old(exclusives)
      ensures forall g :: g in groups ==> !g.checkEnabled
      ensures forall g :: g in groups || g == this ==>
        g.commented == old(g.commented) && g.checked == old(g.checked) && g.mainEnabled == old(g.mainEnabled)
      ensures forall g :: g in groups && g != this ==> g.others == old(g.others) && g.exclusives == old(g.exclusives)
      ensures this !in groups ==> checkEnabled == old(checkEnabled)
    {
      var i := 0;
      while i < |groups|
        invariant 0 <= i <= |groups|
        invariant others == old(others) + groups[..i]
        invariant exclusives == old(exclusives)
        invariant forall j :: 0 <= j < i ==> !groups[j].checkEnabled
        invariant forall g :: g in groups || g == this ==>
          g.commented == old(g.commented) && g.checked == old(g.checked) && g.mainEnabled == old(g.mainEnabled)
        invariant forall g :: g in groups && g != this ==> g.others == old(g.others) && g.exclusives == old(g.exclusives)
        invariant this !in groups ==> checkEnabled == old(checkEnabled)
      {
        assert groups[..i + 1] == groups[..i] + [groups[i]];
        others := others + [groups[i]];
        groups[i].checkEnabled := false;
        i := i + 1;
      }
      assert groups[..i] == groups;
    }

    /** The checkbox listener, run after the user toggled `checked`: the
        parameter is commented iff the box is clear, the grouped groups are
        turned the same way and the exclusive groups the other way, each by
        `Configure`, so one level deep. */
    method Clicked()
      modifies this, set g | g in others, set g | g in exclusives
      ensures others == old(others) && exclusives == old(exclusives)
      ensures forall g :: g in others || g in exclusives || g == this ==>
        g.checkEnabled == old(g.checkEnabled) && g.others == old(g.others) && g.exclusives == old(g.exclusives)
      ensures forall g :: g in others && g !in exclusives ==>
        g.commented == !old(checked) && g.checked == old(checked) && g.mainEnabled == old(checked)
      ensures this !in exclusives ==>
        && commented == !old(checked) && checked == old(checked) && mainEnabled == old(checked)
        && forall g :: g in exclusives ==> g.commented == old(checked) && g.checked == !old(checked) && g.mainEnabled == !old(checked)
    {
      commented := !checked;
      ConfigureMain();
      ghost var c := commented;
      var i := 0;
      while i < |others|
        invariant 0 <= i <= |others|
        invariant others == old(others) && exclusives == old(exclusives)
        invariant forall g :: g in old(others) || g in old(exclusives) || g == this ==>
          g.checkEnabled == old(g.checkEnabled) && g.others == old(g.others) && g.exclusives == old(g.exclusives)
        invariant commented == c && checked == !c && mainEnabled == !c
        invariant forall j :: 0 <= j < i ==> others[j].commented == c && others[j].checked == !c && others[j].mainEnabled == !c
      {
        others[i].Configure(!commented);
        i := i + 1;
      }
      i := 0;
      while i < |exclusives|
        invariant 0 <= i <= |exclusives|
        invariant others == old(others) && exclusives == old(exclusives)
        invariant forall g :: g in old(others) || g in old(exclusives) || g == this ==>
          g.checkEnabled == old(g.checkEnabled) && g.others == old(g.others) && g.exclusives == old(g.exclusives)
        invariant forall g :: g in others && g !in exclusives ==> g.commented == c && g.checked == !c && g.mainEnabled == !c
        invariant this !in exclusives ==> commented == c && checked == !c && mainEnabled == !c
        invariant this !in exclusives ==>
          forall j :: 0 <= j < i ==> exclusives[j].commented == !c && exclusives[j].checked == c && exclusives[j].mainEnabled == c
      {
        exclusives[i].Configure(commented);
        i := i + 1;
      }
    }
  }
}
