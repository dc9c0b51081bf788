/** The two admin tables: the uploads view, which cleans the stored Dropbox
    links before listing them, and the payment-status view, which hides the
    seeded admin account and colours each payment status. Both render a
    missing date as a dash. */
module AdminTables {
  import opened Wrappers
  import opened Text
  import opened Seqs

  /** What a date cell shows: a dash for a missing date, otherwise the
      date in the browser's locale (the formatting itself is not modelled). */
  datatype DateCell = Dash | Localized(date: string)

  /** `formatDate`, shared by both tables. */
  function FormatDate(date: Option<string>): (c: DateCell)
    ensures c == Dash <==> !Truthy(date)
    ensures c.Localized? ==> c.date == date.value
  {
    if !Truthy(date) then Dash else Localized(date.value)
  }

  // ---------------------------------------------------------------------
  // The uploads view

  /** An upload record: its other fields, kept as they are, and `dropbox_link`. */
  datatype Upload = Upload(fields: map<string, string>, dropboxLink: Option<string>)

  /** The link ends in `?dl=1` or `&dl=1`, in any letter case. */
  predicate EndsWithDlOne(s: string) {
    |s| >= 5 && (ToLower(s[|s| - 5..]) == "?dl=1" || ToLower(s[|s| - 5..]) == "&dl=1")
  }

  /** The cleaning of one link: `replace(/(\?dl=1|&dl=1)$/i, "")` on a
      truthy link. The result is the link with at most its last five
      characters dropped, and exactly those when it ends in the parameter. */
  function CleanLink(link: Option<string>): (r: Option<string>)
    ensures !Truthy(link) ==> r == link
    ensures Truthy(link) ==> r.Some? && HasPrefix(link.value, r.value)
    ensures Truthy(link) ==> (|r.value| == |link.value| - 5 <==> EndsWithDlOne(link.value))
    ensures Truthy(link) ==> (r == link <==> !EndsWithDlOne(link.value))
  {
    if !Truthy(link) then link
    else if EndsWithDlOne(link.value) then Some(link.value[..|link.value| - 5])
    else link
  }

  /** Any link followed by the parameter, in any letter case, is cleaned
      back to that link: exactly one suffix goes, even when the link itself
      ends in another one. */
  lemma CleanRemovesOneSuffix(s: string, p: string)
    requires |p| == 5 && (ToLower(p) == "?dl=1" || ToLower(p) == "&dl=1")
    ensures CleanLink(Some(s + p)) == Some(s)
  {
    var u := s + p;
    assert u[|u| - 5..] == p;
    assert u[..|u| - 5] == s;
  }

  /** `x?dl=1&DL=1` loses only `&DL=1`. */
  lemma CleanRemovesOneSuffixExample()
    ensures CleanLink(Some("x?dl=1&DL=1")) == Some("x?dl=1")
  {
    var low := ToLower("&DL=1");
    assert low[0] == '&' && low[1] == 'd' && low[2] == 'l' && low[3] == '=' && low[4] == '1';
    assert low == "&dl=1";
    CleanRemovesOneSuffix("x?dl=1", "&DL=1");
    assert "x?dl=1" + "&DL=1" == "x?dl=1&DL=1";
  }

  /** The `map` of `fetchUploads`: same count, same order, every other field unchanged. */
  function CleanUploads(items: seq<Upload>): (r: seq<Upload>)
    ensures |r| == |items|
    ensures forall i :: 0 <= i < |items| ==> r[i].fields == items[i].fields && r[i].dropboxLink == CleanLink(items[i].dropboxLink)
  {
    seq(|items|, i requires 0 <= i < |items| => items[i].(dropboxLink := CleanLink(items[i].dropboxLink)))
  }

  datatype UploadsPage = UploadsPage(uploads: seq<Upload>, loading: bool)

  /** The page before the request answers. */
  const UploadsLoading: UploadsPage := UploadsPage([], true)

  /** `fetchUploads` with the endpoint's answer (`None` when the request
      failed): the cleaned list or the empty one, and loading ends either way. */
  function UploadsFetched(reply: Option<seq<Upload>>): (p: UploadsPage)
    ensures !p.loading
    ensures reply.None? ==> p.uploads == UploadsLoading.uploads
    ensures reply.Some? ==> p.uploads == CleanUploads(reply.value)
  {
    match reply
    case None => UploadsLoading.(loading := false)
    case Some(items) => UploadsPage(CleanUploads(items), false)
  }

  // ---------------------------------------------------------------------
  // The payment-status view

  /** A row of the payment endpoint: the user and the status of their payment. */
  datatype PaymentRow = PaymentRow(username: Option<string>, email: Option<string>, status: Option<string>,
                                   createdAt: Option<string>)

  /** The seeded administrator, hidden from the table. */
  predicate IsSeededAdmin(u: PaymentRow) {
    u.username == Some("admin") && u.email == Some("admin@example.com")
  }

  /** The `filter` of `fetchUsers`. */
  function VisibleRows(rows: seq<PaymentRow>): (r: seq<PaymentRow>)
    ensures IsSubsequence(r, rows)
    ensures forall u :: u in r <==> u in rows && !IsSeededAdmin(u)
    ensures forall u :: !IsSeededAdmin(u) ==> multiset(r)[u] == multiset(rows)[u]
  {
    var r := Filter(rows, u => !IsSeededAdmin(u));
    assert forall u :: u in r <==> multiset(r)[u] > 0;
    assert forall u :: u in rows <==> multiset(rows)[u] > 0;
    r
  }

  datatype PaymentsPage = PaymentsPage(users: seq<PaymentRow>, loading: bool)

  /** `fetchUsers` with the endpoint's answer (`None` when the request
      failed): the visible rows or the empty list, and loading ends either way. */
  function PaymentsFetched(reply: Option<seq<PaymentRow>>): (p: PaymentsPage)
    ensures !p.loading
    ensures reply.None? ==> p.users == []
    ensures reply.Some? ==> p.users == VisibleRows(reply.value)
  {
    match reply
    case None => PaymentsPage([], false)
    case Some(rows) => PaymentsPage(VisibleRows(rows), false)
  }

  /** A row that matches only the name or only the address stays. */
  lemma HalfMatchKept(rows: seq<PaymentRow>, i: int)
    requires 0 <= i < |rows| && (rows[i].username == Some("admin")) != (rows[i].email == Some("admin@example.com"))
    ensures rows[i] in VisibleRows(rows)
  {
  }

  /** `getStatusColor`: the chip colour of a status, ignoring case. */
  function StatusColor(status: Option<string>): (c: string)
    ensures c == "success" <==> status.Some? && ToLower(status.value) == "paid"
    ensures c == "warning" <==> status.Some? && ToLower(status.value) == "pending"
    ensures c == "error" <==> status.Some? && ToLower(status.value) == "failed"
    ensures c == "default" <==> status.None? || ToLower(status.value) !in {"paid", "pending", "failed"}
  {
    if status.None? then "default"
    else
      var s := ToLower(status.value);
      if s == "paid" then "success"
      else if s == "pending" then "warning"
      else if s == "failed" then "error"
      else "default"
  }

  /** The colour depends on the status only up to letter case. */
  lemma StatusColorIgnoresCase(s: string)
    ensures StatusColor(Some(s)) == StatusColor(Some(ToLower(s)))
  {
    ToLowerIdempotent(s);
  }
}
