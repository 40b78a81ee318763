/** The request handlers of AntaeusRest that carry logic: `/rest/info`,
    `/rest/config` and `/rest/v1/invoices/:id`. A query or path parameter is
    given as the integer its text spells, or `None` when it is missing or not
    an integer literal (a matched `:id` route always has its path parameter,
    so for `id` `None` means only a text that is not an integer literal). The
    handlers apply Kotlin's 32-bit `Int` range as `toIntOrNull` and `toInt`
    do. */
module Rest {
  import opened Wrappers
  import opened Models
  import opened Invoices

  const INT_MIN: int := -0x8000_0000
  const INT_MAX: int := 0x7fff_ffff

  /** The parameter text denotes a Kotlin `Int`: `toIntOrNull` gives a value
      (and `toInt` does not throw) exactly for these. */
  predicate ParsesAsInt(param: Option<int>) {
    param.Some? && INT_MIN <= param.value <= INT_MAX
  }

  /** The "whole db" rule of `/rest/info`: the pointers do not delimit a
      usable range. */
  predicate WholeDb(start: int, finish: int) {
    start >= finish || start < 1 || finish < 1
  }

  /** The check `/rest/config` applies to its two values: it accepts exactly
      what the "whole db" rule rejects, which is 1 <= start < finish (so the
      separate `dbend < 1` test never decides anything). */
  predicate Accepts(start: int, finish: int)
    ensures Accepts(start, finish) <==> !WholeDb(start, finish)
    ensures Accepts(start, finish) <==> 1 <= start < finish
  {
    !((start >= finish) || (start < 1 || finish < 1))
  }

  predicate IsDigit(c: char) {
    '0' <= c <= '9'
  }

  predicate AllDigits(s: string) {
    forall i :: 0 <= i < |s| ==> IsDigit(s[i])
  }

  /** The number a string of decimal digits denotes. */
  function DigitsValue(s: string): nat
    requires AllDigits(s)
    decreases |s|
  {
    if s == [] then 0 else DigitsValue(s[..|s| - 1]) * 10 + (s[|s| - 1] as int - '0' as int)
  }

  /** The decimal digits of a natural number. */
  function Digits(n: nat): (s: string)
    ensures s != [] && AllDigits(s) && DigitsValue(s) == n
    ensures s[0] != '0' || s == "0"
    decreases n
  {
    var last := [(n % 10 + '0' as int) as char];
    if n < 10 then last
    else
      var front := Digits(n / 10);
      assert (front + last)[..|front|] == front;
      front + last
  }

  /** Kotlin's rendering of an `Int` inside a string template: a '-' for a
      negative number, then its decimal digits. Reading the digits back gives
      the number. */
  function Decimal(n: int): (s: string)
    ensures s != []
    ensures n < 0 ==> s[0] == '-' && AllDigits(s[1..]) && DigitsValue(s[1..]) == -n
    ensures n >= 0 ==> AllDigits(s) && DigitsValue(s) == n
    // no leading zero, as Kotlin never writes one
    ensures n < 0 ==> |s| > 1 && s[1] != '0'
    ensures n >= 0 ==> s[0] != '0' || s == "0"
  {
    if n < 0 then
      var digits := Digits(-n);
      assert ("-" + digits)[1..] == digits;
      "-" + digits
    else Digits(n)
  }

  /** Different numbers are rendered differently, and no rendering holds a
      space or a comma. */
  lemma DecimalInjective(a: int, b: int)
    ensures Decimal(a) == Decimal(b) ==> a == b
    ensures ' ' !in Decimal(a) && ',' !in Decimal(a)
  {
    var s := Decimal(a);
    if a < 0 {
      assert forall i :: 1 <= i < |s| ==> s[i] == s[1..][i - 1];
    }
  }

  /** Two texts `a + x` and `c + y` that agree, where `a` and `c` do not
      contain `sep` and `x` and `y` start with it, agree piece by piece. */
  lemma SplitAtSeparator(sep: char, a: string, x: string, c: string, y: string)
    requires sep !in a && sep !in c
    requires x != [] && x[0] == sep && y != [] && y[0] == sep
    requires a + x == c + y
    ensures a == c && x == y
  {
    var k := if |a| < |c| then |a| else |c|;
    assert (a + x)[k] == (c + y)[k];
    assert |a| == |c|;
    assert a == (a + x)[..|a|] && c == (c + y)[..|c|];
    assert x == (a + x)[|a|..] && y == (c + y)[|c|..];
  }

  lemma DropPrefix(p: string, t1: string, t2: string)
    requires p + t1 == p + t2
    ensures t1 == t2
  {
    assert t1 == (p + t1)[|p|..] && t2 == (p + t2)[|p|..];
  }

  lemma DropSuffix(t1: string, t2: string, q: string)
    requires t1 + q == t2 + q
    ensures t1 == t2
  {
    assert t1 == (t1 + q)[..|t1|] && t2 == (t2 + q)[..|t2|];
  }

  /** A text `p + Decimal(s) + m + t`, where `m` starts with a space or a
      comma, gives back `s` and the rest `t`. */
  lemma NumberApart(p: string, m: string, s1: int, t1: string, s2: int, t2: string)
    requires m != [] && (m[0] == ' ' || m[0] == ',')
    requires p + (Decimal(s1) + (m + t1)) == p + (Decimal(s2) + (m + t2))
    ensures s1 == s2 && t1 == t2
  {
    DropPrefix(p, Decimal(s1) + (m + t1), Decimal(s2) + (m + t2));
    DecimalInjective(s1, s2);
    DecimalInjective(s2, s1);
    SplitAtSeparator(m[0], Decimal(s1), m + t1, Decimal(s2), m + t2);
    DropPrefix(m, t1, t2);
  }

  const WHOLE_DB_TEXT := "This worker works on the whole db."
  const RANGE_TEXT := "This worker works on the range:("

  datatype InfoReply = WholeDbReply | RangeReply(start: int, finish: int) {
    /** The JSON string `/rest/info` answers with. */
    function Message(): string
    {
      match this
      case WholeDbReply => WHOLE_DB_TEXT
      case RangeReply(s, f) => RANGE_TEXT + (Decimal(s) + (" - " + (Decimal(f) + ")")))
    }
  }

  /** The info text tells the two replies apart and gives back the exact range. */
  lemma InfoMessageInjective(a: InfoReply, b: InfoReply)
    ensures a.Message() == b.Message() ==> a == b
  {
    if a.Message() == b.Message() {
      if a.RangeReply? && b.RangeReply? {
        NumberApart(RANGE_TEXT, " - ", a.start, Decimal(a.finish) + ")", b.start, Decimal(b.finish) + ")");
        DropSuffix(Decimal(a.finish), Decimal(b.finish), ")");
        DecimalInjective(a.finish, b.finish);
      }
    }
  }

  /** GET `/rest/info`: which part of the store this worker handles. */
  function Info(service: InvoiceService): (r: InfoReply)
    reads service
    ensures r == WholeDbReply <==>
              WholeDb(service.databasePointerStart, service.databasePointerFinish)
    ensures r.RangeReply? ==>
              r.start == service.databasePointerStart && r.finish == service.databasePointerFinish
  {
    if (service.databasePointerStart >= service.databasePointerFinish)
       || (service.databasePointerStart < 1 || service.databasePointerFinish < 1)
    then WholeDbReply
    else RangeReply(service.databasePointerStart, service.databasePointerFinish)
  }

  /** The pointers a fresh service starts with report the whole store. */
  lemma FreshServiceWorksOnWholeDb(service: InvoiceService)
    requires service.databasePointerStart == -1 && service.databasePointerFinish == -1
    ensures Info(service) == WholeDbReply
  {
  }

  const MISSING_TEXT := "Error - check again: dbstart, dbend"
  const BAD_RANGE_TEXT := "Error - check again: dbstart, dbend. values > 0, dbstart < dbend"
  const UPDATED_TEXT := "Pointers have been updated dbstart: "

  datatype ConfigReply = MissingParams | BadRange | Updated(start: int, finish: int) {
    /** The JSON string `/rest/config` answers with. */
    function Message(): string
    {
      match this
      case MissingParams => MISSING_TEXT
      case BadRange => BAD_RANGE_TEXT
      case Updated(s, f) => UPDATED_TEXT + (Decimal(s) + (", dbend: " + Decimal(f)))
    }
  }

  lemma ConfigMessageShape(r: ConfigReply)
    ensures r.Message() != [] && (r.Message()[0] == 'P' <==> r.Updated?)
    ensures r.MissingParams? ==> |r.Message()| == |MISSING_TEXT|
    ensures r.BadRange? ==> |r.Message()| == |BAD_RANGE_TEXT|
  {
    match r
    case MissingParams => assert MISSING_TEXT[0] == 'E';
    case BadRange => assert BAD_RANGE_TEXT[0] == 'E';
    case Updated(s, f) =>
      var tail := Decimal(s) + (", dbend: " + Decimal(f));
      assert (UPDATED_TEXT + tail)[0] == UPDATED_TEXT[0] == 'P';
  }

  /** The config text tells the three replies apart and gives back the
      pointers that were set. */
  lemma ConfigMessageInjective(a: ConfigReply, b: ConfigReply)
    ensures a.Message() == b.Message() ==> a == b
  {
    ConfigMessageShape(a);
    ConfigMessageShape(b);
    if a.Message() == b.Message() {
      if a.Updated? && b.Updated? {
        NumberApart(UPDATED_TEXT, ", dbend: ", a.start, Decimal(a.finish), b.start, Decimal(b.finish));
        DecimalInjective(a.finish, b.finish);
      }
    }
  }

  /** PUT `/rest/config?dbstart=&dbend=`: sets both pointers when both values
      are Kotlin `Int`s forming a valid range; otherwise reports an error and
      leaves both pointers as they were. A value outside the `Int` range is
      treated by `toIntOrNull` like a missing one. */
  method Config(service: InvoiceService, dbstart: Option<int>, dbend: Option<int>)
    returns (reply: ConfigReply)
    modifies service
    ensures !(ParsesAsInt(dbstart) && ParsesAsInt(dbend)) ==>
              reply == MissingParams && unchanged(service)
    ensures (ParsesAsInt(dbstart) && ParsesAsInt(dbend) && !Accepts(dbstart.value, dbend.value)) ==>
              reply == BadRange && unchanged(service)
    ensures (ParsesAsInt(dbstart) && ParsesAsInt(dbend) && Accepts(dbstart.value, dbend.value)) ==>
              && reply == Updated(dbstart.value, dbend.value)
              && service.databasePointerStart == dbstart.value
              && service.databasePointerFinish == dbend.value
    ensures (service.databasePointerStart, service.databasePointerFinish) ==
              ConfigStep((old(service.databasePointerStart), old(service.databasePointerFinish)), dbstart, dbend)
    // a successful update is always visible as a range
    ensures reply.Updated? ==> Info(service) == RangeReply(reply.start, reply.finish)
  {
    var start: Option<int> := if ParsesAsInt(dbstart) then dbstart else None;
    var end: Option<int> := if ParsesAsInt(dbend) then dbend else None;
    if start.None? || end.None? {
      reply := MissingParams;
    } else {
      var s, e := start.value, end.value;
      if (s >= e) || (s < 1 || e < 1) {
        reply := BadRange;
      } else {
        service.databasePointerStart := s;
        service.databasePointerFinish := e;
        reply := Updated(service.databasePointerStart, service.databasePointerFinish);
      }
    }
  }

  /** The request pair `/rest/config` accepts. */
  predicate AcceptedRequest(request: (Option<int>, Option<int>)) {
    ParsesAsInt(request.0) && ParsesAsInt(request.1) && Accepts(request.0.value, request.1.value)
  }

  /** The configuration as a state machine on the pointer pair. */
  function ConfigStep(pointers: (int, int), dbstart: Option<int>, dbend: Option<int>): (next: (int, int))
  {
    if AcceptedRequest((dbstart, dbend)) then (dbstart.value, dbend.value) else pointers
  }

  function ConfigRun(pointers: (int, int), requests: seq<(Option<int>, Option<int>)>): (int, int)
    decreases |requests|
  {
    if requests == [] then pointers
    else ConfigRun(ConfigStep(pointers, requests[0].0, requests[0].1), requests[1..])
  }

  /** After any sequence of config requests the pointers are the pair given
      by the last accepted request, or the starting pair when none was
      accepted; so from the fresh state (-1, -1) they are that state or an
      accepted range, and never a half-updated pair. */
  lemma {:induction false} ConfigRunReachable(pointers: (int, int), requests: seq<(Option<int>, Option<int>)>)
    ensures var p := ConfigRun(pointers, requests);
            || ((forall j :: 0 <= j < |requests| ==> !AcceptedRequest(requests[j])) && p == pointers)
            || (exists i :: 0 <= i < |requests| && AcceptedRequest(requests[i])
                  && p == (requests[i].0.value, requests[i].1.value)
                  && forall j :: i < j < |requests| ==> !AcceptedRequest(requests[j]))
    ensures pointers == (-1, -1) || Accepts(pointers.0, pointers.1) ==>
              var p := ConfigRun(pointers, requests);
              p == pointers || Accepts(p.0, p.1)
    decreases |requests|
  {
    if requests != [] {
      var next := ConfigStep(pointers, requests[0].0, requests[0].1);
      var rest := requests[1..];
      ConfigRunReachable(next, rest);
      var p := ConfigRun(pointers, requests);
      assert p == ConfigRun(next, rest);
      if exists i :: 0 <= i < |rest| && AcceptedRequest(rest[i])
                  && p == (rest[i].0.value, rest[i].1.value)
                  && forall j :: i < j < |rest| ==> !AcceptedRequest(rest[j]) {
        var i :| 0 <= i < |rest| && AcceptedRequest(rest[i])
                  && p == (rest[i].0.value, rest[i].1.value)
                  && forall j :: i < j < |rest| ==> !AcceptedRequest(rest[j]);
        assert requests[i + 1] == rest[i];
        assert forall j :: i + 1 < j < |requests| ==> requests[j] == rest[j - 1];
      } else {
        assert forall j :: 1 <= j < |requests| ==> requests[j] == rest[j - 1];
        if AcceptedRequest(requests[0]) {
          assert p == (requests[0].0.value, requests[0].1.value);
        }
      }
    }
  }

  /** The body of GET `/rest/v1/invoices/:id`. */
  datatype InvoiceReply =
    | Found(invoice: Invoice)
    | BadId(message: string, httpStatus: int)
    | NotFoundEscapes(error: InvoiceNotFound)

  /** GET `/rest/v1/invoices/:id`: an id that is not a Kotlin `Int` makes
      `toInt` throw NumberFormatException, answered with the "check again"
      message and status 500; otherwise the fetched invoice, or the
      InvoiceNotFound exception leaves the handler (Javalin maps it to 404). */
  method GetInvoice(service: InvoiceService, id: Option<int>) returns (reply: InvoiceReply)
    ensures !ParsesAsInt(id) ==> reply == BadId("Please check again the given id.", 500)
    ensures ParsesAsInt(id) && id.value in service.dal.invoices ==>
              reply == Found(service.dal.invoices[id.value])
    ensures ParsesAsInt(id) && id.value !in service.dal.invoices ==>
              reply == NotFoundEscapes(InvoiceNotFound(id.value))
  {
    if !ParsesAsInt(id) {
      return BadId("Please check again the given id.", 500);
    }
    var r := service.Fetch(id.value);
    match r
    case Ok(invoice) => reply := Found(invoice);
    case Err(e) => reply := NotFoundEscapes(e);
  }
}
