/** The CRM dry run: a diff that is computed and never applied (packages/tool_registry/tools.py). */
module DryRun {
  import opened Values

  type Account = map<string, Json>

  /** One diff entry: `field`, `from`, `to`. */
  datatype Change = Change(field: string, before: Json, after: Json)

  /** The keys of a dict are distinct. */
  predicate IsDict(d: Dict)
  {
    forall i, j :: 0 <= i < j < |d| ==> d[i].key != d[j].key
  }

  /** `account.get(key)`: a missing field reads as None. */
  function Read(account: Account, key: string): Json
  {
    if key in account then account[key] else Null
  }

  function Diff(account: Account, proposed: Dict): seq<Change>
  {
    if proposed == [] then []
    else
      var last := proposed[|proposed| - 1];
      var before := Diff(account, proposed[..|proposed| - 1]);
      if Read(account, last.key) != last.value
      then before + [Change(last.key, Read(account, last.key), last.value)]
      else before
  }

  /** Every proposed change written. */
  function Update(account: Account, proposed: Dict): Account
  {
    if proposed == [] then account
    else
      var last := proposed[|proposed| - 1];
      Update(account, proposed[..|proposed| - 1])[last.key := last.value]
  }

  /** The `to` values written. */
  function Apply(account: Account, diff: seq<Change>): Account
  {
    if diff == [] then account
    else Apply(account, diff[..|diff| - 1])[diff[|diff| - 1].field := diff[|diff| - 1].after]
  }

  /** The `from` values written. */
  function Revert(account: Account, diff: seq<Change>): Account
  {
    if diff == [] then account
    else Revert(account, diff[..|diff| - 1])[diff[|diff| - 1].field := diff[|diff| - 1].before]
  }

  /** Output (account, diff, and the two flags) and metadata (proposed change, resource). */
  datatype Report = Report(
    accountId: string, diff: seq<Change>, humanApprovalRequired: bool, writesApplied: bool,
    proposedChange: Dict, resourceId: string)

  /** `_create_crm_update_dry_run`. */
  method CreateCrmUpdateDryRun(accounts: map<string, Account>, accountId: string, proposed: Dict)
    returns (r: Result<Report, string>)
    ensures accountId !in accounts ==> r == Err("NOT_FOUND")
    ensures accountId in accounts ==>
              r == Ok(Report(accountId, Diff(accounts[accountId], proposed), true, false, proposed, accountId))
  {
    if accountId !in accounts {
      return Err("NOT_FOUND");
    }
    var account := accounts[accountId];
    var diff: seq<Change> := [];
    for i := 0 to |proposed|
      invariant diff == Diff(account, proposed[..i])
    {
      assert proposed[..i + 1][..i] == proposed[..i];
      var oldValue := Read(account, proposed[i].key);
      if oldValue != proposed[i].value {
        diff := diff + [Change(proposed[i].key, oldValue, proposed[i].value)];
      }
    }
    assert proposed[..|proposed|] == proposed;
    return Ok(Report(accountId, diff, true, false, proposed, accountId));
  }

  /** The diff lists the proposed changes at the places `at`: those that do not hold yet, in the proposal's order. */
  predicate Lists(account: Account, proposed: Dict, diff: seq<Change>, at: seq<nat>)
  {
    && |at| == |diff| && (forall k :: 0 <= k < |at| ==> at[k] < |proposed|)
    && (forall j, k :: 0 <= j < k < |at| ==> at[j] < at[k])
    && (forall k :: 0 <= k < |at| ==>
          diff[k] == Change(proposed[at[k]].key, Read(account, proposed[at[k]].key), proposed[at[k]].value))
    && (forall i: nat :: i < |proposed| ==> (i in at <==> Read(account, proposed[i].key) != proposed[i].value))
  }

  lemma {:induction false} DiffListsChanges(account: Account, proposed: Dict) returns (at: seq<nat>)
    ensures Lists(account, proposed, Diff(account, proposed), at)
  {
    if proposed == [] {
      at := [];
    } else {
      hide Lists; hide Diff;
      var init, last := proposed[..|proposed| - 1], proposed[|proposed| - 1];
      at := DiffListsChanges(account, init);
      ListsGrow(account, init, last, Diff(account, init), at);
      DiffGrows(account, init, last);
      assert proposed == init + [last];
      if Read(account, last.key) != last.value {
        at := at + [|init|];
      }
    }
  }

  lemma DiffGrows(account: Account, init: Dict, last: Field)
    ensures Diff(account, init + [last])
            == if Read(account, last.key) != last.value
               then Diff(account, init) + [Change(last.key, Read(account, last.key), last.value)]
               else Diff(account, init)
  {
    assert (init + [last])[..|init|] == init;
  }

  lemma ListsGrow(account: Account, init: Dict, last: Field, diff: seq<Change>, at: seq<nat>)
    requires Lists(account, init, diff, at)
    ensures var was := Read(account, last.key);
            if was != last.value
            then Lists(account, init + [last], diff + [Change(last.key, was, last.value)], at + [|init|])
            else Lists(account, init + [last], diff, at)
  {
  }

  /** Some entry of the diff is about `key`. */
  predicate Touches(diff: seq<Change>, key: string)
  {
    diff != [] && (diff[|diff| - 1].field == key || Touches(diff[..|diff| - 1], key))
  }

  lemma {:induction false} UpdateReads(account: Account, proposed: Dict, key: string)
    requires IsDict(proposed)
    ensures forall i :: 0 <= i < |proposed| && proposed[i].key == key ==>
              Read(Update(account, proposed), key) == proposed[i].value
    ensures (forall i :: 0 <= i < |proposed| ==> proposed[i].key != key) ==>
              Read(Update(account, proposed), key) == Read(account, key)
    decreases |proposed|
  {
    if proposed != [] {
      UpdateReads(account, proposed[..|proposed| - 1], key);
    }
  }

  lemma ApplyLast(account: Account, diff: seq<Change>, c: Change)
    ensures Apply(account, diff + [c]) == Apply(account, diff)[c.field := c.after]
    ensures forall k :: Touches(diff + [c], k) <==> c.field == k || Touches(diff, k)
  {
    assert (diff + [c])[..|diff|] == diff;
  }

  /** Applying the `to` values reads, field by field, like applying every proposed change. */
  lemma {:induction false} PatchIsSound(account: Account, proposed: Dict, key: string)
    requires IsDict(proposed)
    ensures Read(Apply(account, Diff(account, proposed)), key) == Read(Update(account, proposed), key)
    decreases |proposed|
  {
    if proposed != [] {
      var init, last := proposed[..|proposed| - 1], proposed[|proposed| - 1];
      PatchIsSound(account, init, key);
      PatchSoundStep(account, init, last, Update(account, init), Diff(account, init), key);
    }
  }

  lemma PatchSoundStep(account: Account, init: Dict, last: Field, updated: Account, diff: seq<Change>, key: string)
    requires IsDict(init) && forall i :: 0 <= i < |init| ==> init[i].key != last.key
    requires updated == Update(account, init) && Read(Apply(account, diff), key) == Read(updated, key)
    ensures var c := Change(last.key, Read(account, last.key), last.value);
            Read(Apply(account, if c.before != c.after then diff + [c] else diff), key)
            == Read(updated[last.key := last.value], key)
  {
    ApplyLast(account, diff, Change(last.key, Read(account, last.key), last.value));
    UpdateReads(account, init, last.key);
  }

  /** A field has an entry exactly when the proposal changes what it reads. */
  lemma {:induction false} TouchedIffChanged(account: Account, proposed: Dict, key: string)
    requires IsDict(proposed)
    ensures Touches(Diff(account, proposed), key) <==> Read(Update(account, proposed), key) != Read(account, key)
    decreases |proposed|
  {
    if proposed != [] {
      var n := |proposed| - 1;
      var d0 := Diff(account, proposed[..n]);
      TouchedIffChanged(account, proposed[..n], key);
      UpdateReads(account, proposed[..n], proposed[n].key);
      ApplyLast(account, d0, Change(proposed[n].key, Read(account, proposed[n].key), proposed[n].value));
    }
  }

  lemma {:induction false} EntriesReadAccount(account: Account, proposed: Dict)
    ensures forall c :: c in Diff(account, proposed) ==> c.before == Read(account, c.field) && c.before != c.after
    decreases |proposed|
  {
    if proposed != [] {
      EntriesReadAccount(account, proposed[..|proposed| - 1]);
    }
  }

  lemma {:induction false} RevertReads(account: Account, diff: seq<Change>, base: Account, key: string)
    requires forall c :: c in diff ==> c.before == Read(base, c.field)
    ensures Read(Revert(account, diff), key) == if Touches(diff, key) then Read(base, key) else Read(account, key)
    decreases |diff|
  {
    if diff != [] {
      RevertReads(account, diff[..|diff| - 1], base, key);
      assert diff[|diff| - 1] in diff;
    }
  }

  /** Applying the patch and then the `from` values reads like the untouched account. */
  lemma PatchIsReversible(account: Account, proposed: Dict, key: string)
    requires IsDict(proposed)
    ensures Read(Revert(Apply(account, Diff(account, proposed)), Diff(account, proposed)), key) == Read(account, key)
  {
    var diff := Diff(account, proposed);
    EntriesReadAccount(account, proposed);
    RevertReads(Apply(account, diff), diff, account, key);
    PatchIsSound(account, proposed, key);
    TouchedIffChanged(account, proposed, key);
  }

  /** The diff is empty exactly when every proposed change already holds. */
  lemma EmptyIffNothingChanges(account: Account, proposed: Dict)
    requires IsDict(proposed)
    ensures Diff(account, proposed) == [] <==>
            forall i :: 0 <= i < |proposed| ==> Read(account, proposed[i].key) == proposed[i].value
  {
    var diff := Diff(account, proposed);
    forall i | 0 <= i < |proposed|
      ensures Touches(diff, proposed[i].key) <==> Read(account, proposed[i].key) != proposed[i].value
    {
      UpdateReads(account, proposed, proposed[i].key);
      TouchedIffChanged(account, proposed, proposed[i].key);
    }
    if diff != [] {
      var key := diff[|diff| - 1].field;
      TouchedIffChanged(account, proposed, key);
      UpdateReads(account, proposed, key);
    }
  }

  /** Any patch with the same effect has an entry for every field of this one. */
  lemma PatchIsMinimal(account: Account, proposed: Dict, other: seq<Change>, key: string)
    requires IsDict(proposed)
    requires forall k :: Read(Apply(account, other), k) == Read(Update(account, proposed), k)
    ensures Touches(Diff(account, proposed), key) ==> Touches(other, key)
  {
    TouchedIffChanged(account, proposed, key);
    if !Touches(other, key) {
      ApplyElsewhere(account, other, key);
    }
  }

  lemma {:induction false} ApplyElsewhere(account: Account, diff: seq<Change>, key: string)
    requires !Touches(diff, key)
    ensures Read(Apply(account, diff), key) == Read(account, key)
    decreases |diff|
  {
    if diff != [] {
      ApplyElsewhere(account, diff[..|diff| - 1], key);
    }
  }

  function FieldsOf(diff: seq<Change>): set<string>
  {
    if diff == [] then {} else FieldsOf(diff[..|diff| - 1]) + {diff[|diff| - 1].field}
  }

  lemma {:induction false} FieldsAreTouched(diff: seq<Change>)
    ensures forall k :: k in FieldsOf(diff) <==> Touches(diff, k)
    ensures |FieldsOf(diff)| <= |diff|
  {
    if diff != [] {
      FieldsAreTouched(diff[..|diff| - 1]);
    }
  }

  lemma OneMoreField(diff: seq<Change>, entry: Change)
    requires |FieldsOf(diff)| == |diff| && !Touches(diff, entry.field)
    ensures |FieldsOf(diff + [entry])| == |diff + [entry]|
  {
    FieldsAreTouched(diff);
    assert (diff + [entry])[..|diff|] == diff;
    assert FieldsOf(diff + [entry]) == FieldsOf(diff) + {entry.field};
  }

  lemma {:induction false} OneEntryAField(account: Account, proposed: Dict)
    requires IsDict(proposed)
    ensures |FieldsOf(Diff(account, proposed))| == |Diff(account, proposed)|
    decreases |proposed|
  {
    if proposed != [] {
      var init, last := proposed[..|proposed| - 1], proposed[|proposed| - 1];
      OneEntryAField(account, init);
      FreshEntry(account, init, last);
      OneMoreField(Diff(account, init), Change(last.key, Read(account, last.key), last.value));
    }
  }

  lemma FreshEntry(account: Account, init: Dict, last: Field)
    requires IsDict(init) && forall i :: 0 <= i < |init| ==> init[i].key != last.key
    ensures !Touches(Diff(account, init), last.key)
  {
    UpdateReads(account, init, last.key);
    TouchedIffChanged(account, init, last.key);
  }

  lemma SubsetIsSmaller(a: set<string>, b: set<string>)
    requires a <= b
    ensures |a| <= |b|
  {
    assert b == a + (b - a);
  }

  /** No list of changes with the same effect is shorter than the diff. */
  lemma NoShorterPatch(account: Account, proposed: Dict, other: seq<Change>)
    requires IsDict(proposed)
    requires forall k :: Read(Apply(account, other), k) == Read(Update(account, proposed), k)
    ensures |Diff(account, proposed)| <= |other|
  {
    var diff := Diff(account, proposed);
    OneEntryAField(account, proposed);
    FieldsAreTouched(diff);
    FieldsAreTouched(other);
    forall k | Touches(diff, k) ensures Touches(other, k) {
      PatchIsMinimal(account, proposed, other, k);
    }
    SubsetIsSmaller(FieldsOf(diff), FieldsOf(other));
  }
}
