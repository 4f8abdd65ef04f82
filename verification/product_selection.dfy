/** The product checklist: the list of selected product names and what ticking
    or unticking one product's box makes of it. */
module ProductSelection {
  import opened Sequences

  /** Ticking a product appends its name at the end of the list. */
  function Check(selected: seq<string>, name: string): (r: seq<string>)
    ensures |r| == |selected| + 1
    ensures r[..|selected|] == selected && r[|selected|] == name
  {
    selected + [name]
  }

  /** Unticking a product keeps every other name, in order, and drops every
      occurrence of this one. */
  function Uncheck(selected: seq<string>, name: string): (r: seq<string>)
    ensures name !in r
    ensures forall x :: x != name ==> multiset(r)[x] == multiset(selected)[x]
    ensures |r| <= |selected|
  {
    if selected == [] then []
    else
      assert selected == [selected[0]] + selected[1..];
      (if selected[0] == name then [] else [selected[0]]) + Uncheck(selected[1..], name)
  }

  /** The box's change handler: `checked` is the box's new state. */
  function Toggle(selected: seq<string>, name: string, checked: bool): seq<string>
  {
    if checked then Check(selected, name) else Uncheck(selected, name)
  }

  /** A click on a product's box: the box shows whether the name is already in
      the list, and a click flips that state. */
  function Click(selected: seq<string>, name: string): (r: seq<string>)
    ensures name in r <==> name !in selected
  {
    Toggle(selected, name, name !in selected)
  }

  /** Unticking works element by element, so the relative order of the names
      kept is the order they had. */
  lemma {:induction false} UncheckAppend(a: seq<string>, b: seq<string>, name: string)
    ensures Uncheck(a + b, name) == Uncheck(a, name) + Uncheck(b, name)
    decreases |a|
  {
    if a == [] {
      assert a + b == b;
    } else {
      assert (a + b)[1..] == a[1..] + b;
      UncheckAppend(a[1..], b, name);
    }
  }

  /** Unticking a name that is not in the list changes nothing. */
  lemma {:induction false} UncheckAbsent(selected: seq<string>, name: string)
    requires name !in selected
    ensures Uncheck(selected, name) == selected
    decreases |selected|
  {
    if selected != [] {
      UncheckAbsent(selected[1..], name);
      assert selected == [selected[0]] + selected[1..];
    }
  }

  /** Ticking then unticking a product that was not selected restores the list. */
  lemma CheckThenUncheck(selected: seq<string>, name: string)
    requires name !in selected
    ensures Uncheck(Check(selected, name), name) == selected
  {
    UncheckAppend(selected, [name], name);
    UncheckAbsent(selected, name);
  }

  /** Ticking a product that is already selected and then unticking it does not
      restore the list: every copy of the name is gone. */
  lemma CheckThenUncheckPresent(selected: seq<string>, name: string)
    requires name in selected
    ensures Uncheck(Check(selected, name), name) == Uncheck(selected, name)
    ensures Uncheck(Check(selected, name), name) != selected
  {
    UncheckAppend(selected, [name], name);
    assert Uncheck([name], name) == [];
    assert Uncheck(selected, name) + [] == Uncheck(selected, name);
  }

  /** Two clicks on a product that was not selected leave the list as it was. */
  lemma ClickTwice(selected: seq<string>, name: string)
    requires name !in selected
    ensures Click(Click(selected, name), name) == selected
  {
    CheckThenUncheck(selected, name);
  }

  /** Clicking never introduces a repeated name. */
  lemma ClickKeepsNoDuplicates(selected: seq<string>, name: string)
    requires NoDuplicates(selected)
    ensures NoDuplicates(Click(selected, name))
  {
    if name !in selected {
      var r := Check(selected, name);
      forall i, j | 0 <= i < j < |r| ensures r[i] != r[j] {
        if j == |selected| {
          assert r[i] == selected[i];
        } else {
          assert r[i] == selected[i] && r[j] == selected[j];
        }
      }
    } else {
      UncheckKeepsNoDuplicates(selected, name);
    }
  }

  lemma {:induction false} UncheckKeepsNoDuplicates(selected: seq<string>, name: string)
    requires NoDuplicates(selected)
    ensures NoDuplicates(Uncheck(selected, name))
    decreases |selected|
  {
    if selected != [] {
      UncheckKeepsNoDuplicates(selected[1..], name);
      var rest := Uncheck(selected[1..], name);
      if selected[0] != name {
        assert selected[0] !in selected[1..] by {
          forall k | 0 <= k < |selected[1..]| ensures selected[1..][k] != selected[0] {
            assert selected[1..][k] == selected[k + 1];
          }
        }
        assert multiset(rest)[selected[0]] == 0;
        var r := [selected[0]] + rest;
        forall i, j | 0 <= i < j < |r| ensures r[i] != r[j] {
          if i == 0 {
            assert r[j] == rest[j - 1];
            assert r[j] in rest;
          } else {
            assert r[i] == rest[i - 1] && r[j] == rest[j - 1];
          }
        }
      } else {
        assert [] + rest == rest;
      }
    }
  }
}
