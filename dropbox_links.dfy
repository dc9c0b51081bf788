/** The dashboard's Dropbox link rewriting: `getDropboxLink` turns a shared
    link into a download link (`?dl=1`) or a preview link (`?dl=0`), and the
    Watch and Download actions open the rewritten or the stored link. */
module DropboxLinks {
  import opened Wrappers
  import opened Text

  /** A match of the pattern `/\?dl=\d/` starts at `i`: the four characters
      `?dl=` followed by one ASCII digit. */
  predicate DlAt(url: string, i: int) {
    0 <= i && i + 5 <= |url| && url[i..i + 4] == "?dl=" && IsDigit(url[i + 4])
  }

  /** `i` is the first match of the pattern, the one `replace` rewrites. */
  predicate IsFirstDl(url: string, i: int) {
    DlAt(url, i) && forall j :: 0 <= j < i ==> !DlAt(url, j)
  }

  /** The link already carries `?dl=0` or `?dl=1`. */
  predicate HasDlParam(url: string) {
    Contains(url, "?dl=0") || Contains(url, "?dl=1")
  }

  /** The query parameter for a link type: download for `"download"`, preview for any other type. */
  function DlParam(linkType: string): string {
    if linkType == "download" then "?dl=1" else "?dl=0"
  }

  /** The first match at or after `from`. */
  function FirstDl(url: string, from: nat): (r: Option<nat>)
    requires from <= |url|
    ensures r.Some? ==> from <= r.value && DlAt(url, r.value)
    ensures r.Some? ==> forall j :: from <= j < r.value ==> !DlAt(url, j)
    ensures r.None? ==> forall j :: from <= j ==> !DlAt(url, j)
    decreases |url| - from
  {
    if from + 5 > |url| then None
    else if DlAt(url, from) then Some(from)
    else FirstDl(url, from + 1)
  }

  /** An occurrence of `?dl=0` or `?dl=1` is a match of the pattern, so a
      link with either has a first match. */
  lemma ParamIsMatch(url: string)
    requires HasDlParam(url)
    ensures FirstDl(url, 0).Some?
  {
    var i :| 0 <= i <= |url| - 5 && (OccursAt(url, "?dl=0", i) || OccursAt(url, "?dl=1", i));
    var w := url[i..i + 5];
    if OccursAt(url, "?dl=0", i) {
      assert w == "?dl=0";
    } else {
      assert OccursAt(url, "?dl=1", i);
      assert w == "?dl=1";
    }
    assert w[..4] == "?dl=" && IsDigit(w[4]);
    assert url[i..i + 4] == w[..4] && url[i + 4] == w[4];
    assert DlAt(url, i);
  }

  /** `getDropboxLink(url, type)`; an absent `type` is `"download"`. */
  function DropboxLink(url: Option<string>, linkType: Option<string>): (r: string)
    ensures !Truthy(url) ==> r == ""
    ensures Truthy(url) && HasDlParam(url.value) ==>
      && |r| == |url.value|
      && exists i :: IsFirstDl(url.value, i) && r == url.value[..i] + DlParam(linkType.GetOr("download")) + url.value[i + 5..]
    ensures Truthy(url) && !HasDlParam(url.value) ==> r == url.value + DlParam(linkType.GetOr("download"))
    ensures Truthy(url) ==> Contains(r, DlParam(linkType.GetOr("download")))
  {
    if !Truthy(url) then ""
    else
      var u, p := url.value, DlParam(linkType.GetOr("download"));
      if HasDlParam(u) then
        ParamIsMatch(u);
        var i := FirstDl(u, 0).value;
        var r := u[..i] + p + u[i + 5..];
        assert IsFirstDl(u, i);
        assert OccursAt(r, p, i) by { assert r[i..i + 5] == p; }
        r
      else
        var r := u + p;
        assert OccursAt(r, p, |u|) by { assert r[|u|..|u| + 5] == p; }
        r
  }

  /** `handleWatch`: the preview form of the stored link. */
  function WatchTarget(link: Option<string>): (r: string)
    ensures Truthy(link) ==> Contains(r, "?dl=0")
    ensures Truthy(link) ==> r == DropboxLink(link, Some("preview"))
    ensures !Truthy(link) ==> r == ""
  {
    DropboxLink(link, Some("preview"))
  }

  /** There is only one first match. */
  lemma FirstDlUnique(url: string, i: int, k: int)
    requires IsFirstDl(url, i) && IsFirstDl(url, k)
    ensures i == k
  {
  }

  /** The rewrite of a link with a parameter, at its first match `i`. */
  lemma RewriteAt(url: string, linkType: Option<string>, i: int)
    requires url != [] && HasDlParam(url) && IsFirstDl(url, i)
    ensures DropboxLink(Some(url), linkType) == url[..i] + DlParam(linkType.GetOr("download")) + url[i + 5..]
  {
    var p := DlParam(linkType.GetOr("download"));
    var k :| IsFirstDl(url, k) && DropboxLink(Some(url), linkType) == url[..k] + p + url[k + 5..];
    FirstDlUnique(url, i, k);
  }

  /** Putting a parameter in place of the first match keeps it the first
      match: only the digit changes, and no earlier position looks at it. */
  lemma ReplaceKeepsFirst(url: string, i: int, p: string)
    requires IsFirstDl(url, i) && (p == "?dl=0" || p == "?dl=1")
    ensures IsFirstDl(url[..i] + p + url[i + 5..], i)
  {
    var r := url[..i] + p + url[i + 5..];
    assert |r| == |url|;
    forall j | 0 <= j < |r| && j != i + 4
      ensures r[j] == url[j]
    {
      if j < i {
        assert r[j] == url[..i][j];
      } else if j < i + 5 {
        assert r[j] == p[j - i];
        assert url[i..i + 4][j - i] == url[j];
      } else {
        assert r[j] == url[i + 5..][j - i - 5];
      }
    }
    forall j | 0 <= j < i
      ensures !DlAt(r, j)
    {
      assert !DlAt(url, j);
      assert forall k :: j <= k < j + 4 ==> r[k] == url[k];
      assert r[j..j + 4] == url[j..j + 4];
      assert r[j + 4] == url[j + 4];
    }
    assert r[i..i + 4] == url[i..i + 4];
    assert r[i + 4] == p[4];
  }

  /** Rewriting an already rewritten link with a parameter changes nothing. */
  lemma RewriteIdempotent(url: string, linkType: Option<string>)
    requires url != [] && HasDlParam(url)
    ensures var once := DropboxLink(Some(url), linkType);
            DropboxLink(Some(once), linkType) == once
  {
    var p := DlParam(linkType.GetOr("download"));
    var once := DropboxLink(Some(url), linkType);
    var i :| IsFirstDl(url, i) && once == url[..i] + p + url[i + 5..];
    ReplaceKeepsFirst(url, i, p);
    assert OccursAt(once, p, i) by { assert once[i..i + 5] == p; }
    RewriteAt(once, linkType, i);
    assert once[..i] == url[..i] && once[i + 5..] == url[i + 5..];
  }

  /** Appending text after a link keeps its first match. */
  lemma AppendKeepsFirst(u: string, i: int, p: string)
    requires IsFirstDl(u, i)
    ensures IsFirstDl(u + p, i)
  {
    var once := u + p;
    assert once[i..i + 4] == u[i..i + 4] && once[i + 4] == u[i + 4];
    forall j | 0 <= j < i
      ensures !DlAt(once, j)
    {
      assert !DlAt(u, j);
      assert once[j..j + 4] == u[j..j + 4] && once[j + 4] == u[j + 4];
    }
  }

  /** A first match in a link without `?dl=0` or `?dl=1` has another digit. */
  lemma OtherDigitAt(u: string, i: int, p: string)
    requires !HasDlParam(u) && IsFirstDl(u, i) && (p == "?dl=0" || p == "?dl=1")
    ensures u[i + 4] != p[4]
  {
    assert u[i..i + 5] == u[i..i + 4] + [u[i + 4]];
    assert !OccursAt(u, p, i);
  }

  /** A link whose first match carries a digit other than 0 or 1 gets the
      parameter appended, and rewriting the result then replaces that
      earlier match instead: the rewrite is not idempotent there. */
  lemma OtherDigitRewrittenTwice(u: string, i: int, linkType: Option<string>)
    requires u != [] && !HasDlParam(u) && IsFirstDl(u, i)
    ensures var p := DlParam(linkType.GetOr("download"));
            var once := DropboxLink(Some(u), linkType);
            && once == u + p
            && DropboxLink(Some(once), linkType) == u[..i] + p + u[i + 5..] + p
            && DropboxLink(Some(once), linkType) != once
  {
    var p := DlParam(linkType.GetOr("download"));
    var once := u + p;
    assert OccursAt(once, p, |u|) by { assert once[|u|..|u| + 5] == p; }
    AppendKeepsFirst(u, i, p);
    RewriteAt(once, linkType, i);
    var twice := once[..i] + p + once[i + 5..];
    assert once[..i] == u[..i] && once[i + 5..] == u[i + 5..] + p;
    OtherDigitAt(u, i, p);
    assert twice[i + 4] == p[4] && once[i + 4] == u[i + 4];
  }

  /** `"a?dl=5"` is such a link: it becomes `"a?dl=5?dl=1"`, which in turn
      becomes `"a?dl=1?dl=1"`. */
  lemma OtherDigitExample()
    ensures var u := "a?dl=5"; !HasDlParam(u) && IsFirstDl(u, 1)
  {
    var u := "a?dl=5";
    assert !OccursAt(u, "?dl=0", 0) && !OccursAt(u, "?dl=1", 0) by { assert u[0..5][0] == 'a'; }
    assert !OccursAt(u, "?dl=0", 1) && !OccursAt(u, "?dl=1", 1) by { assert u[1..6][4] == '5'; }
    assert DlAt(u, 1) by { assert u[1..5] == "?dl="; }
    assert !DlAt(u, 0) by { assert u[0..4][0] == 'a'; }
  }
}
