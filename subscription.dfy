/** The plan page: the table of the four plans, the pay-as-you-go price
    estimate and the URL `handleSelectPlan` navigates to. */
module Subscription {
  import opened Wrappers
  import opened Text
  import CheckoutView

  /** The fields of a plan the page's logic reads (icon, colour, details
      and description are presentation). */
  datatype Plan = Plan(title: string, price: string, buttonText: string, router: string)

  const FreeTrial := Plan("Free Trial", "Free", "Start Free Trial", "/upload")
  const PayAsYouGo := Plan("Pay-as-you-go", "$1/min (min $5)", "Pay", "/subscription/checkout")
  const Monthly := Plan("Monthly", "$49/month", "Subscribe", "/subscription/checkout")
  const Yearly := Plan("Yearly", "$500/year", "Subscribe", "/subscription/checkout")
  const Plans: seq<Plan> := [FreeTrial, PayAsYouGo, Monthly, Yearly]

  /** The free trial goes to the upload page, every paid plan to checkout,
      and no two plans share a title. */
  lemma PlanRoutes()
    ensures |Plans| == 4 && Plans[0].router == "/upload"
    ensures forall i :: 1 <= i < |Plans| ==> Plans[i].router == "/subscription/checkout"
    ensures forall i, j :: 0 <= i < j < |Plans| ==> Plans[i].title != Plans[j].title
  {
  }

  /** `location.state?.videoLength || 0`: an absent length, and a length
      of 0, both give 0. */
  function VideoLength(state: Option<int>): (n: int)
    ensures state.None? ==> n == 0
    ensures state.Some? ==> n == state.value
  {
    state.GetOr(0)
  }

  /** The estimate under a plan's price: only for pay-as-you-go and a
      positive length, and then the length in dollars with a $5 minimum. */
  function Estimate(plan: Plan, videoLength: int): (r: Option<int>)
    ensures r.Some? <==> plan.title == "Pay-as-you-go" && videoLength > 0
    ensures r.Some? ==> r.value >= 5 && r.value >= videoLength
    ensures r.Some? ==> (r.value == 5 || r.value == videoLength)
  {
    if plan.title == "Pay-as-you-go" && videoLength > 0 then
      Some(if videoLength > 5 then videoLength else 5)
    else None
  }

  /** The line the estimate shows. */
  function EstimateText(dollars: int, videoLength: int): (t: string)
    ensures HasPrefix(t, "Estimated: $") && HasSuffix(t, " min Video")
  {
    "Estimated: $" + IntToString(dollars) + " for " + IntToString(videoLength) + " min Video"
  }

  /** The estimate shown on the page is the amount the checkout view
      charges for the same number of minutes on the pay-as-you-go plan. */
  lemma EstimateIsPayAsYouGoCharge(videoLength: int)
    requires videoLength > 0
    ensures Estimate(PayAsYouGo, videoLength) == Some(CheckoutView.PayAsYouGoDollars(videoLength))
  {
  }

  // ---- encodeURIComponent ----

  /** The characters `encodeURIComponent` leaves as they are. */
  predicate Unreserved(c: char) {
    ('A' <= c <= 'Z') || ('a' <= c <= 'z') || ('0' <= c <= '9')
    || c == '-' || c == '_' || c == '.' || c == '!' || c == '~' || c == '*' || c == '\'' || c == '(' || c == ')'
  }

  predicate IsHexUpper(c: char) {
    ('0' <= c <= '9') || ('A' <= c <= 'F')
  }

  function HexDigit(n: int): (c: char)
    requires 0 <= n < 16
    ensures IsHexUpper(c) && HexValue(c) == n
  {
    if n < 10 then ('0' as int + n) as char else ('A' as int + n - 10) as char
  }

  function HexValue(c: char): int
    requires IsHexUpper(c)
  {
    if c <= '9' then c as int - '0' as int else c as int - 'A' as int + 10
  }

  predicate IsByte(b: int) {
    0 <= b < 256
  }

  /** The UTF-8 encoding of one Unicode scalar value. */
  function Utf8(c: char): (bytes: seq<int>)
    ensures 1 <= |bytes| <= 4 && forall k :: 0 <= k < |bytes| ==> IsByte(bytes[k])
    ensures |bytes| == 1 <==> c as int < 0x80
    ensures |bytes| == 1 ==> bytes[0] == c as int
  {
    var cp := c as int;
    if cp < 0x80 then [cp]
    else if cp < 0x800 then [0xC0 + cp / 0x40, 0x80 + cp % 0x40]
    else if cp < 0x1_0000 then [0xE0 + cp / 0x1000, 0x80 + cp / 0x40 % 0x40, 0x80 + cp % 0x40]
    else [0xF0 + cp / 0x4_0000, 0x80 + cp / 0x1000 % 0x40, 0x80 + cp / 0x40 % 0x40, 0x80 + cp % 0x40]
  }

  /** The UTF-8 encoding of a string. */
  function Utf8String(s: string): (bytes: seq<int>)
    ensures forall k :: 0 <= k < |bytes| ==> IsByte(bytes[k])
  {
    if s == [] then [] else Utf8(s[0]) + Utf8String(s[1..])
  }

  /** `%XY` for one byte, with upper-case hexadecimal digits. */
  function PercentByte(b: int): (r: string)
    requires IsByte(b)
    ensures |r| == 3 && r[0] == '%' && IsHexUpper(r[1]) && IsHexUpper(r[2])
    ensures HexValue(r[1]) * 16 + HexValue(r[2]) == b
  {
    ['%', HexDigit(b / 16), HexDigit(b % 16)]
  }

  function PercentBytes(bytes: seq<int>): string
    requires forall k :: 0 <= k < |bytes| ==> IsByte(bytes[k])
  {
    if bytes == [] then [] else PercentByte(bytes[0]) + PercentBytes(bytes[1..])
  }

  /** Every byte becomes three characters. */
  lemma {:induction false} PercentBytesLength(bytes: seq<int>)
    requires forall k :: 0 <= k < |bytes| ==> IsByte(bytes[k])
    ensures |PercentBytes(bytes)| == 3 * |bytes|
  {
    if bytes != [] {
      PercentBytesLength(bytes[1..]);
    }
  }

  function EncodeChar(c: char): (r: string)
    ensures 1 <= |r| <= 12
    ensures |r| == 1 <==> Unreserved(c)
  {
    if Unreserved(c) then [c]
    else
      PercentBytesLength(Utf8(c));
      PercentBytes(Utf8(c))
  }

  /** JavaScript's `encodeURIComponent`. Dafny characters are scalar
      values, so there is no lone surrogate and no `URIError`. */
  function EncodeURIComponent(s: string): (r: string)
    ensures |s| <= |r| <= 12 * |s|
  {
    if s == [] then [] else EncodeChar(s[0]) + EncodeURIComponent(s[1..])
  }

  /** The encoding keeps the length exactly when every character is
      unreserved: any other character becomes at least three. */
  lemma {:induction false} LengthKeptIffUnreserved(s: string)
    ensures |EncodeURIComponent(s)| == |s| <==> forall k :: 0 <= k < |s| ==> Unreserved(s[k])
  {
    if s != [] {
      LengthKeptIffUnreserved(s[1..]);
      assert forall k :: 1 <= k < |s| ==> s[k] == s[1..][k - 1];
    }
  }

  /** A string of unreserved characters is its own encoding. */
  lemma {:induction false} UnreservedUnchanged(s: string)
    requires forall k :: 0 <= k < |s| ==> Unreserved(s[k])
    ensures EncodeURIComponent(s) == s
  {
    if s != [] {
      UnreservedUnchanged(s[1..]);
      assert s == [s[0]] + s[1..];
    }
  }

  /** The encoding works character by character. */
  lemma {:induction false} EncodeAppend(a: string, b: string)
    ensures EncodeURIComponent(a + b) == EncodeURIComponent(a) + EncodeURIComponent(b)
  {
    if a != [] {
      assert (a + b)[0] == a[0] && (a + b)[1..] == a[1..] + b;
      EncodeAppend(a[1..], b);
    } else {
      assert a + b == b;
    }
  }

  /** The output is made of unreserved characters and `%` with hexadecimal
      digits only, so it holds no `&`, `=`, `?`, `#` or space. */
  predicate Encoded(r: string) {
    forall k :: 0 <= k < |r| ==> Unreserved(r[k]) || r[k] == '%' || IsHexUpper(r[k])
  }

  lemma {:induction false} PercentBytesEncoded(bytes: seq<int>)
    requires forall k :: 0 <= k < |bytes| ==> IsByte(bytes[k])
    ensures Encoded(PercentBytes(bytes))
  {
    if bytes != [] {
      PercentBytesEncoded(bytes[1..]);
    }
  }

  lemma {:induction false} EncodedOutput(s: string)
    ensures Encoded(EncodeURIComponent(s))
  {
    if s != [] {
      var head, rest := EncodeChar(s[0]), EncodeURIComponent(s[1..]);
      if !Unreserved(s[0]) {
        PercentBytesEncoded(Utf8(s[0]));
      }
      EncodedOutput(s[1..]);
      assert EncodeURIComponent(s) == head + rest;
      assert forall k :: 0 <= k < |head| ==> (head + rest)[k] == head[k];
      assert forall k :: |head| <= k < |head| + |rest| ==> (head + rest)[k] == rest[k - |head|];
    }
  }

  lemma NoSeparators(r: string)
    requires Encoded(r)
    ensures '&' !in r && '=' !in r && '?' !in r && '#' !in r && ' ' !in r
  {
  }

  /** The bytes a percent-encoded string stands for: `%XY` is one byte, an
      unreserved character its ASCII code; anything else is malformed. */
  function PercentDecode(r: string): Option<seq<int>>
    decreases |r|
  {
    if r == [] then Some([])
    else if r[0] == '%' then
      if |r| >= 3 && IsHexUpper(r[1]) && IsHexUpper(r[2]) then
        match PercentDecode(r[3..])
        case Some(rest) => Some([HexValue(r[1]) * 16 + HexValue(r[2])] + rest)
        case None => None
      else None
    else if Unreserved(r[0]) then
      match PercentDecode(r[1..])
      case Some(rest) => Some([r[0] as int] + rest)
      case None => None
    else None
  }

  /** One escape in front of a decodable string decodes to its byte. */
  lemma DecodeEscape(p: string, rest: string)
    requires |p| == 3 && p[0] == '%' && IsHexUpper(p[1]) && IsHexUpper(p[2])
    requires PercentDecode(rest).Some?
    ensures PercentDecode(p + rest) == Some([HexValue(p[1]) * 16 + HexValue(p[2])] + PercentDecode(rest).value)
  {
    var r := p + rest;
    assert r[0] == '%' && r[1] == p[1] && r[2] == p[2] && r[3..] == rest;
  }

  lemma {:induction false} DecodePercentBytes(bytes: seq<int>, tail: string)
    requires forall k :: 0 <= k < |bytes| ==> IsByte(bytes[k])
    requires PercentDecode(tail).Some?
    ensures PercentDecode(PercentBytes(bytes) + tail) == Some(bytes + PercentDecode(tail).value)
  {
    if bytes != [] {
      var p := PercentByte(bytes[0]);
      var rest := PercentBytes(bytes[1..]) + tail;
      DecodePercentBytes(bytes[1..], tail);
      assert PercentBytes(bytes) == p + PercentBytes(bytes[1..]);
      assert PercentBytes(bytes) + tail == p + rest;
      var d := PercentDecode(tail).value;
      DecodeEscape(p, rest);
      assert HexValue(p[1]) * 16 + HexValue(p[2]) == bytes[0];
      assert [bytes[0]] + (bytes[1..] + d) == bytes + d;
    } else {
      assert PercentBytes(bytes) + tail == tail;
      assert bytes + PercentDecode(tail).value == PercentDecode(tail).value;
    }
  }

  /** Decoding the percent-escapes of the encoded string gives back the
      string's UTF-8 bytes: `encodeURIComponent` loses nothing. */
  lemma {:induction false} DecodeEncode(s: string)
    ensures PercentDecode(EncodeURIComponent(s)) == Some(Utf8String(s))
  {
    if s != [] {
      var rest := EncodeURIComponent(s[1..]);
      DecodeEncode(s[1..]);
      if Unreserved(s[0]) {
        assert EncodeURIComponent(s) == [s[0]] + rest;
        assert ([s[0]] + rest)[1..] == rest;
      } else {
        DecodePercentBytes(Utf8(s[0]), rest);
      }
    }
  }

  // ---- handleSelectPlan ----

  /** Where the page navigates and the state it carries along. */
  datatype Navigation = Navigation(url: string, statePlan: Plan)

  /** `handleSelectPlan(plan)`: the plan's route with the title and the
      length as query parameters, and the plan as navigation state. */
  function SelectPlan(plan: Plan, videoLength: int): (n: Navigation)
    ensures n.statePlan == plan && |n.url| > |plan.router| && n.url[..|plan.router|] == plan.router
  {
    var query := ("title=" + EncodeURIComponent(plan.title)) + "&" + ("minutes=" + IntToString(videoLength));
    Navigation(plan.router + "?" + query, plan)
  }

  /** The text before the first `c`, or all of `s`. */
  function Before(s: string, c: char): (r: string)
    ensures c !in r
  {
    if s == [] || s[0] == c then [] else [s[0]] + Before(s[1..], c)
  }

  /** The text after the first `c`, or nothing. */
  function After(s: string, c: char): string {
    if s == [] then [] else if s[0] == c then s[1..] else After(s[1..], c)
  }

  lemma {:induction false} SplitAtFirst(a: string, c: char, b: string)
    requires c !in a
    ensures Before(a + [c] + b, c) == a && After(a + [c] + b, c) == b
  {
    if a != [] {
      assert (a + [c] + b)[1..] == a[1..] + [c] + b;
      SplitAtFirst(a[1..], c, b);
    } else {
      assert a + [c] + b == [c] + b;
    }
  }

  /** The query of the target splits back into the two parameters: the
      title, whose encoding decodes to the title's UTF-8 bytes, and the
      length in minutes. */
  lemma {:induction false} SelectPlanQuery(plan: Plan, videoLength: int)
    requires '?' !in plan.router
    ensures var q := After(SelectPlan(plan, videoLength).url, '?');
      && Before(q, '&') == "title=" + EncodeURIComponent(plan.title)
      && After(q, '&') == "minutes=" + IntToString(videoLength)
  {
    var e := EncodeURIComponent(plan.title);
    var t := "title=" + e;
    var m := "minutes=" + IntToString(videoLength);
    EncodedOutput(plan.title);
    NoSeparators(e);
    assert '&' !in t by {
      assert forall k :: 6 <= k < |t| ==> t[k] == e[k - 6];
    }
    SplitAtFirst(plan.router, '?', t + ['&'] + m);
    SplitAtFirst(t, '&', m);
    DecodeEncode(plan.title);
  }

  /** The free trial's title is the one whose space is escaped. */
  lemma FreeTrialTitleEncoded()
    ensures EncodeURIComponent(FreeTrial.title) == "Free" + "%20" + "Trial"
  {
    FreeTrialTitleWords();
    FreeAndTrialUnescaped("Free", "Trial");
  }

  lemma FreeTrialTitleWords()
    ensures FreeTrial.title == "Free" + " " + "Trial"
  {
  }

  lemma FreeAndTrialUnescaped(free: string, trial: string)
    requires free == "Free" && trial == "Trial"
    ensures EncodeURIComponent(free + " " + trial) == free + "%20" + trial
  {
    TitleUnescaped(free);
    TitleUnescaped(trial);
    SpaceBetween(free, trial);
  }

  /** Two unescaped words around a space: only the space becomes `%20`. */
  lemma SpaceBetween(a: string, b: string)
    requires EncodeURIComponent(a) == a && EncodeURIComponent(b) == b
    ensures EncodeURIComponent(a + " " + b) == a + "%20" + b
  {
    EncodeAppend(a + " ", b);
    EncodeAppend(a, " ");
    SpaceEscaped(" ");
  }

  lemma SpaceEscaped(s: string)
    requires s == " "
    ensures EncodeURIComponent(s) == "%20"
  {
    assert Utf8(s[0]) == [32];
    assert PercentBytes([32]) == PercentByte(32) + PercentBytes([]);
    assert EncodeURIComponent(s) == EncodeChar(s[0]) + EncodeURIComponent([]);
  }

  /** The other titles need no escaping. */
  lemma PaidTitlesUnescaped()
    ensures EncodeURIComponent(PayAsYouGo.title) == PayAsYouGo.title
    ensures EncodeURIComponent(Monthly.title) == Monthly.title
    ensures EncodeURIComponent(Yearly.title) == Yearly.title
  {
    TitleUnescaped(PayAsYouGo.title);
    TitleUnescaped(Monthly.title);
    TitleUnescaped(Yearly.title);
  }

  lemma TitleUnescaped(s: string)
    requires s in {"Free", "Trial", "Pay-as-you-go", "Monthly", "Yearly"}
    ensures EncodeURIComponent(s) == s
  {
    assert forall k :: 0 <= k < |s| ==> Unreserved(s[k]);
    UnreservedUnchanged(s);
  }
}
