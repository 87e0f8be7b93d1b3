/**
 * The admin-management page (`src/components/page/admin.tsx`): the rule that
 * decides whether a typed user id is added, the add and remove actions with
 * their error and busy flags, the footer text and which rows may be removed.
 *
 * The backend (the `admins` and `profiles` tables) is an oracle: each action
 * receives the outcome of its insert, delete or reload. Every request the
 * page makes is logged in `requests` together with the value `actionLoading`
 * has while the request is awaited.
 */
module Admin {
  import opened Wrappers
  import JsText

  // ---------------------------------------------------------------------
  // The UUID pattern /^[0-9a-f]{8}-[0-9a-f]{4}-[0-9a-f]{4}-[0-9a-f]{4}-[0-9a-f]{12}$/i

  predicate IsHexDigit(c: char)
  {
    ('0' <= c <= '9') || ('a' <= c <= 'f') || ('A' <= c <= 'F')
  }

  predicate HexGroup(s: string, n: nat)
  {
    |s| == n && forall i :: 0 <= i < |s| ==> IsHexDigit(s[i])
  }

  /** The regular expression, group by group: 8-4-4-4-12 hex digits joined by single hyphens. */
  predicate IsUuid(s: string)
  {
    && |s| == 36
    && HexGroup(s[0..8], 8) && s[8] == '-'
    && HexGroup(s[9..13], 4) && s[13] == '-'
    && HexGroup(s[14..18], 4) && s[18] == '-'
    && HexGroup(s[19..23], 4) && s[23] == '-'
    && HexGroup(s[24..36], 12)
  }

  predicate IsHyphenPosition(i: int)
  {
    i == 8 || i == 13 || i == 18 || i == 23
  }

  /** The same pattern read position by position: 36 characters, hyphens at 8, 13, 18, 23, hex digits elsewhere. */
  lemma UuidByPosition(s: string)
    ensures IsUuid(s) <==>
      && |s| == 36
      && forall i :: 0 <= i < 36 ==> (if IsHyphenPosition(i) then s[i] == '-' else IsHexDigit(s[i]))
  {
    if |s| == 36 && forall i :: 0 <= i < 36 ==> (if IsHyphenPosition(i) then s[i] == '-' else IsHexDigit(s[i])) {
      forall i | 0 <= i < 8 ensures IsHexDigit(s[0..8][i]) { assert !IsHyphenPosition(i); }
      forall i | 0 <= i < 4 ensures IsHexDigit(s[9..13][i]) { assert !IsHyphenPosition(9 + i); }
      forall i | 0 <= i < 4 ensures IsHexDigit(s[14..18][i]) { assert !IsHyphenPosition(14 + i); }
      forall i | 0 <= i < 4 ensures IsHexDigit(s[19..23][i]) { assert !IsHyphenPosition(19 + i); }
      forall i | 0 <= i < 12 ensures IsHexDigit(s[24..36][i]) { assert !IsHyphenPosition(24 + i); }
    }
    if IsUuid(s) {
      forall i | 0 <= i < 36 ensures if IsHyphenPosition(i) then s[i] == '-' else IsHexDigit(s[i]) {
        if i < 8 { assert s[0..8][i] == s[i]; }
        else if 8 < i < 13 { assert s[9..13][i - 9] == s[i]; }
        else if 13 < i < 18 { assert s[14..18][i - 14] == s[i]; }
        else if 18 < i < 23 { assert s[19..23][i - 19] == s[i]; }
        else if 23 < i { assert s[24..36][i - 24] == s[i]; }
      }
    }
  }

  /** Any five hex groups of lengths 8, 4, 4, 4, 12 joined by hyphens match. */
  lemma UuidFromGroups(g1: string, g2: string, g3: string, g4: string, g5: string)
    requires HexGroup(g1, 8) && HexGroup(g2, 4) && HexGroup(g3, 4) && HexGroup(g4, 4) && HexGroup(g5, 12)
    ensures IsUuid(g1 + "-" + g2 + "-" + g3 + "-" + g4 + "-" + g5)
  {
    var s := g1 + "-" + g2 + "-" + g3 + "-" + g4 + "-" + g5;
    assert s[0..8] == g1 && s[9..13] == g2 && s[14..18] == g3 && s[19..23] == g4 && s[24..36] == g5;
  }

  function LowerAscii(c: char): char
  {
    if 'A' <= c <= 'Z' then (c as int + 32) as char else c
  }

  function ToLowerAscii(s: string): (r: string)
    ensures |r| == |s| && forall i :: 0 <= i < |s| ==> r[i] == LowerAscii(s[i])
  {
    seq(|s|, i requires 0 <= i < |s| => LowerAscii(s[i]))
  }

  /** The `i` flag: a string matches exactly when its lower-cased form does. */
  lemma UuidCaseInsensitive(s: string)
    ensures IsUuid(s) <==> IsUuid(ToLowerAscii(s))
  {
    UuidByPosition(s);
    UuidByPosition(ToLowerAscii(s));
  }

  // ---------------------------------------------------------------------
  // The decision `addAdmin` takes

  datatype AdminRow = AdminRow(id: string, email: Option<string>)

  /** `admins.some((a) => a.id === id)`. */
  predicate HasAdmin(admins: seq<AdminRow>, id: string)
  {
    exists k :: 0 <= k < |admins| && admins[k].id == id
  }

  datatype AddDecision = InvalidFormat | AlreadyAdmin | InsertId(id: string)

  /**
   * What `addAdmin(raw)` does before touching the backend: the trimmed input
   * is checked against the pattern, then against the listed admins, and only
   * a valid new id is inserted, in its trimmed form.
   */
  function DecideAdd(raw: string, admins: seq<AdminRow>): (d: AddDecision)
    ensures d.InvalidFormat? <==> !IsUuid(JsText.Trim(raw))
    ensures d.AlreadyAdmin? <==> IsUuid(JsText.Trim(raw)) && HasAdmin(admins, JsText.Trim(raw))
    ensures d.InsertId? ==> d.id == JsText.Trim(raw) && IsUuid(d.id) && !HasAdmin(admins, d.id)
  {
    var trimmedId := JsText.Trim(raw);
    if !IsUuid(trimmedId) then InvalidFormat
    else if HasAdmin(admins, trimmedId) then AlreadyAdmin
    else InsertId(trimmedId)
  }

  /** Only the trimmed input matters: surrounding whitespace never changes the decision. */
  lemma {:induction false} DecideAddIgnoresPadding(raw: string, admins: seq<AdminRow>)
    ensures DecideAdd(raw, admins) == DecideAdd(JsText.Trim(raw), admins)
  {
    JsText.TrimIdempotent(raw);
  }

  /** A matching id has no surrounding whitespace, so the inserted id is never padded. */
  lemma UuidHasNoWhitespace(s: string)
    requires IsUuid(s)
    ensures JsText.Trim(s) == s
  {
    UuidByPosition(s);
    assert !JsText.IsJsWhitespace(s[0]) && !JsText.IsJsWhitespace(s[35]);
    assert JsText.LeadingWhitespace(s) == 0;
    assert s[0..] == s;
    assert JsText.TrailingWhitespace(s) == 0;
  }

  // ---------------------------------------------------------------------
  // Footer and rows

  /** `error ? error : `${admins.length} admin${admins.length !== 1 ? "s" : ""}``. */
  function FooterText(error: Option<string>, count: nat): string
  {
    if JsText.Truthy(error) then error.value
    else JsText.Decimal(count) + " admin" + (if count != 1 then "s" else "")
  }

  /**
   * Without an error the footer is the count's numeral followed by " admin",
   * with an "s" exactly when the count is not 1; with one it is the error.
   */
  lemma FooterShowsCount(error: Option<string>, count: nat)
    ensures JsText.Truthy(error) ==> FooterText(error, count) == error.value
    ensures !JsText.Truthy(error) ==>
      var f, digits := FooterText(error, count), JsText.Decimal(count);
      && |digits| < |f|
      && JsText.DecimalValue(f[..|digits|]) == count
      && (f[|digits|..] == " admins" <==> count != 1)
      && (f[|digits|..] == " admin" <==> count == 1)
  {
    if !JsText.Truthy(error) {
      var f, digits := FooterText(error, count), JsText.Decimal(count);
      assert f[..|digits|] == digits;
      JsText.DecimalRoundTrip(count);
      if count != 1 {
        assert f[|digits|..] == " admins";
      } else {
        assert f[|digits|..] == " admin";
      }
    }
  }

  /** With an error present, the footer is that error. */
  lemma FooterShowsError(error: Option<string>, count: nat)
    requires JsText.Truthy(error)
    ensures FooterText(error, count) == error.value
  {
  }

  /** What a row of the list offers on its right. */
  datatype RowControl = SuperAdminLabel | RemoveButton

  function RowControlFor(admin: AdminRow, superAdminId: string): RowControl
  {
    if admin.id == superAdminId then SuperAdminLabel else RemoveButton
  }

  /** The add button is disabled while busy or while the typed id is blank after trimming. */
  predicate AddDisabled(newAdminId: string, actionLoading: bool)
  {
    JsText.Trim(newAdminId) == "" || actionLoading
  }

  // ---------------------------------------------------------------------
  // The page's state and actions

  datatype Request = SelectAdmins | InsertAdmin(id: string) | DeleteAdmin(id: string)

  /** A backend request and the value of `actionLoading` while it is awaited. */
  datatype Call = Call(request: Request, busy: bool)

  /** What reloading the list returns: the rows with the emails looked up, or an error. */
  datatype FetchOutcome = Fetched(rows: seq<AdminRow>) | FetchFailed

  const InvalidUuidMessage := "Invalid UUID format"
  const DuplicateMessage := "This user is already an admin"
  const AddFailedMessage := "Failed to add admin. Make sure the user ID exists."
  const RemoveFailedMessage := "Failed to remove admin"
  const FetchFailedMessage := "Failed to fetch admins"

  class AdminPage {
    /** `SUPER_ADMIN_ID`, defined in the authentication context. */
    const superAdminId: string
    var admins: seq<AdminRow>
    var error: Option<string>
    var loading: bool
    var actionLoading: bool
    var isAddDialogOpen: bool
    var isRemoveDialogOpen: bool
    var adminToRemove: Option<AdminRow>
    var newAdminId: string
    var requests: seq<Call>

    constructor (superAdminId: string)
      ensures this.superAdminId == superAdminId
      ensures admins == [] && error == None && loading && !actionLoading
      ensures !isAddDialogOpen && !isRemoveDialogOpen && adminToRemove == None && newAdminId == ""
      ensures requests == []
    {
      this.superAdminId := superAdminId;
      admins, error, loading, actionLoading := [], None, true, false;
      isAddDialogOpen, isRemoveDialogOpen, adminToRemove, newAdminId := false, false, None, "";
      requests := [];
    }

    function Footer(): string
      reads this
    {
      FooterText(error, |admins|)
    }

    /**
     * `fetchAdmins()`: the list is replaced on success; on failure the list is
     * kept and the error set. `loading` is cleared either way; a previous error
     * is not cleared by a successful reload.
     */
    method FetchAdmins(outcome: FetchOutcome)
      modifies this
      ensures requests == old(requests) + [Call(SelectAdmins, old(actionLoading))]
      ensures !loading
      ensures outcome.Fetched? ==> admins == outcome.rows && error == old(error)
      ensures outcome.FetchFailed? ==> admins == old(admins) && error == Some(FetchFailedMessage)
      ensures actionLoading == old(actionLoading) && isAddDialogOpen == old(isAddDialogOpen)
      ensures isRemoveDialogOpen == old(isRemoveDialogOpen) && adminToRemove == old(adminToRemove)
      ensures newAdminId == old(newAdminId)
    {
      loading := true;
      requests := requests + [Call(SelectAdmins, actionLoading)];
      if outcome.Fetched? {
        admins := outcome.rows;
      } else {
        error := Some(FetchFailedMessage);
      }
      loading := false;
    }

    /**
     * What `addAdmin(id)` leaves behind, given the insert's and the reload's
     * outcomes. Error is cleared and busy set first, then the decision of
     * `DecideAdd`. An invalid or duplicate id sets its message and sends
     * nothing. A new id is inserted in trimmed form. A failed insert sets the
     * add-failed message. A successful one clears the input, closes the dialog
     * and reloads, which leaves `loading` cleared. Busy is cleared at the end
     * in every case.
     */
    twostate predicate AddAdminEffect(id: string, insertSucceeds: bool, reload: FetchOutcome)
      reads this
    {
      && !actionLoading
      && adminToRemove == old(adminToRemove) && isRemoveDialogOpen == old(isRemoveDialogOpen)
      && match DecideAdd(id, old(admins))
        case InvalidFormat =>
          && error == Some(InvalidUuidMessage) && requests == old(requests) && loading == old(loading)
          && admins == old(admins) && newAdminId == old(newAdminId) && isAddDialogOpen == old(isAddDialogOpen)
        case AlreadyAdmin =>
          && error == Some(DuplicateMessage) && requests == old(requests) && loading == old(loading)
          && admins == old(admins) && newAdminId == old(newAdminId) && isAddDialogOpen == old(isAddDialogOpen)
        case InsertId(trimmedId) =>
          if !insertSucceeds then
            && error == Some(AddFailedMessage) && loading == old(loading)
            && requests == old(requests) + [Call(InsertAdmin(trimmedId), true)]
            && admins == old(admins) && newAdminId == old(newAdminId) && isAddDialogOpen == old(isAddDialogOpen)
          else
            && requests == old(requests) + [Call(InsertAdmin(trimmedId), true), Call(SelectAdmins, true)]
            && newAdminId == "" && !isAddDialogOpen && !loading
            && (reload.Fetched? ==> admins == reload.rows && error == None)
            && (reload.FetchFailed? ==> admins == old(admins) && error == Some(FetchFailedMessage))
    }

    /** `addAdmin(id)`; the footer then shows the message of a rejected or failed add. */
    method AddAdmin(id: string, insertSucceeds: bool, reload: FetchOutcome)
      modifies this
      ensures AddAdminEffect(id, insertSucceeds, reload)
      ensures DecideAdd(id, old(admins)).InvalidFormat? ==> Footer() == InvalidUuidMessage
      ensures DecideAdd(id, old(admins)).AlreadyAdmin? ==> Footer() == DuplicateMessage
      ensures DecideAdd(id, old(admins)).InsertId? && !insertSucceeds ==> Footer() == AddFailedMessage
    {
      ghost var decision := DecideAdd(id, admins);
      actionLoading := true;
      error := None;
      var trimmedId := JsText.Trim(id);
      if !IsUuid(trimmedId) {
        assert decision == InvalidFormat;
        error := Some(InvalidUuidMessage);
      } else if HasAdmin(admins, trimmedId) {
        assert decision == AlreadyAdmin;
        error := Some(DuplicateMessage);
      } else {
        assert decision == InsertId(trimmedId);
        requests := requests + [Call(InsertAdmin(trimmedId), actionLoading)];
        if !insertSucceeds {
          error := Some(AddFailedMessage);
        } else {
          newAdminId := "";
          isAddDialogOpen := false;
          FetchAdmins(reload);
        }
      }
      actionLoading := false;
      if JsText.Truthy(error) {
        FooterShowsError(error, |admins|);
      }
    }

    /**
     * What `removeAdmin(id)` leaves behind. Error is cleared and busy set
     * first, and the delete is sent. On failure the remove-failed message is
     * set. On success the dialog is closed and the list reloaded, which leaves
     * `loading` cleared. Busy is cleared at the end. The id is not checked
     * against the super admin here: only the rows' controls do that.
     */
    twostate predicate RemoveAdminEffect(id: string, deleteSucceeds: bool, reload: FetchOutcome)
      reads this
    {
      && !actionLoading
      && newAdminId == old(newAdminId) && isAddDialogOpen == old(isAddDialogOpen)
      && (!deleteSucceeds ==>
        && error == Some(RemoveFailedMessage) && loading == old(loading)
        && requests == old(requests) + [Call(DeleteAdmin(id), true)]
        && admins == old(admins) && adminToRemove == old(adminToRemove)
        && isRemoveDialogOpen == old(isRemoveDialogOpen))
      && (deleteSucceeds ==>
        && requests == old(requests) + [Call(DeleteAdmin(id), true), Call(SelectAdmins, true)]
        && adminToRemove == None && !isRemoveDialogOpen && !loading
        && (reload.Fetched? ==> admins == reload.rows && error == None)
        && (reload.FetchFailed? ==> admins == old(admins) && error == Some(FetchFailedMessage)))
    }

    /** `removeAdmin(id)`; after a failed delete the footer shows its message. */
    method RemoveAdmin(id: string, deleteSucceeds: bool, reload: FetchOutcome)
      modifies this
      ensures RemoveAdminEffect(id, deleteSucceeds, reload)
      ensures !deleteSucceeds ==> Footer() == RemoveFailedMessage
    {
      actionLoading := true;
      error := None;
      requests := requests + [Call(DeleteAdmin(id), actionLoading)];
      if !deleteSucceeds {
        error := Some(RemoveFailedMessage);
      } else {
        adminToRemove := None;
        isRemoveDialogOpen := false;
        FetchAdmins(reload);
      }
      actionLoading := false;
    }

    /** The add button's click: only possible while it is enabled; adds the typed id. */
    method ClickAdd(insertSucceeds: bool, reload: FetchOutcome)
      requires !AddDisabled(newAdminId, actionLoading)
      modifies this
      ensures AddAdminEffect(old(newAdminId), insertSucceeds, reload)
      ensures DecideAdd(old(newAdminId), old(admins)).InsertId? <==> |requests| > |old(requests)|
    {
      AddAdmin(newAdminId, insertSucceeds, reload);
    }

    /** A row's trash button: only rows other than the super admin's have one. */
    method OpenRemoveDialog(admin: AdminRow)
      requires RowControlFor(admin, superAdminId) == RemoveButton
      modifies this
      ensures adminToRemove == Some(admin) && isRemoveDialogOpen
      ensures admin.id != superAdminId
      ensures admins == old(admins) && error == old(error) && requests == old(requests)
      ensures actionLoading == old(actionLoading) && isAddDialogOpen == old(isAddDialogOpen)
      ensures newAdminId == old(newAdminId) && loading == old(loading)
    {
      adminToRemove := Some(admin);
      isRemoveDialogOpen := true;
    }

    /** The dialog's Remove button, enabled while not busy: `adminToRemove && removeAdmin(adminToRemove.id)`. */
    method ConfirmRemove(deleteSucceeds: bool, reload: FetchOutcome)
      requires !actionLoading
      modifies this
      ensures old(adminToRemove).None? ==> unchanged(this)
      ensures old(adminToRemove).Some? ==> RemoveAdminEffect(old(adminToRemove).value.id, deleteSucceeds, reload)
    {
      if adminToRemove.Some? {
        RemoveAdmin(adminToRemove.value.id, deleteSucceeds, reload);
      }
    }
  }
}
