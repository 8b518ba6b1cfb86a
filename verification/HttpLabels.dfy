/** The method and status labels of a request, shared by the Node adapters. */
module HttpLabels {
  import opened Wrappers

  // ---- Status ----

  /** A status as it may be passed: a finite number, one that is not, or text,
      with the finite number it converts to, if any. */
  datatype StatusCode = Finite(value: real) | NotFinite | Text(parsed: Option<real>)

  const STATUSES := ["1xx", "2xx", "3xx", "4xx", "5xx"]

  function ValueOf(code: StatusCode): Option<real> {
    match code
    case Finite(v) => Some(v)
    case NotFinite => None
    case Text(parsed) => parsed
  }

  function StatusBucket(code: StatusCode): string {
    match ValueOf(code)
    case None => "5xx"
    case Some(v) =>
      if 100.0 <= v < 600.0 then ["0123456789"[(v / 100.0).Floor]] + "xx" else "5xx"
  }

  lemma BucketOf(code: StatusCode)
    ensures StatusBucket(code) ==
            match ValueOf(code)
            case None => "5xx"
            case Some(v) =>
              if 100.0 <= v < 200.0 then "1xx"
              else if 200.0 <= v < 300.0 then "2xx"
              else if 300.0 <= v < 400.0 then "3xx"
              else if 400.0 <= v < 500.0 then "4xx"
              else "5xx"
  {
    if ValueOf(code).Some? && 100.0 <= ValueOf(code).value < 600.0 {
      var d := (ValueOf(code).value / 100.0).Floor;
      assert 1 <= d <= 5;
      assert StatusBucket(code) == ["0123456789"[d]] + "xx";
      if d == 1 { assert StatusBucket(code) == "1xx"; }
      if d == 2 { assert StatusBucket(code) == "2xx"; }
      if d == 3 { assert StatusBucket(code) == "3xx"; }
      if d == 4 { assert StatusBucket(code) == "4xx"; }
      if d == 5 { assert StatusBucket(code) == "5xx"; }
    }
  }

  /** A code from 100 to 599, as a number or as text, keeps its class, anything
      else counts as a server error. */
  lemma StatusBucketed(code: StatusCode)
    ensures forall v | code == Finite(v) || code == Text(Some(v)) ::
              StatusBucket(code) == if 100.0 <= v < 200.0 then "1xx"
                                    else if 200.0 <= v < 300.0 then "2xx"
                                    else if 300.0 <= v < 400.0 then "3xx"
                                    else if 400.0 <= v < 500.0 then "4xx"
                                    else "5xx"
    ensures code == NotFinite || code == Text(None) ==> StatusBucket(code) == "5xx"
    ensures StatusBucket(code) in STATUSES
  {
    BucketOf(code);
    assert STATUSES == ["1xx", "2xx", "3xx", "4xx", "5xx"];
  }

  // ---- Method ----

  /** A method as it may be passed: text, with its upper-case form, or none. */
  datatype Method = Name(text: string, upper: string) | NotText

  const ALLOWED_METHODS := ["GET", "HEAD", "POST", "PUT", "DELETE", "CONNECT", "OPTIONS", "TRACE", "PATCH"]

  /** The methods of section 9.3 of RFC 9110, and PATCH of RFC 5789. */
  predicate IsUpperCaseMethod(s: string) {
    s in {"GET", "HEAD", "POST", "PUT", "DELETE", "CONNECT", "OPTIONS", "TRACE", "PATCH"}
  }

  function NormalizeMethod(m: Method): string {
    match m
    case NotText => "OTHER"
    case Name(text, upper) =>
      if text in ALLOWED_METHODS then text
      else if upper in ALLOWED_METHODS then upper
      else "OTHER"
  }

  predicate IsMethodLabel(label_: string) { label_ in ALLOWED_METHODS || label_ == "OTHER" }

  /** The fast path changes nothing: a method is labelled by its upper-case form,
      if that is allowed, however it was written. */
  lemma MethodByUpperCase(m: Method)
    requires m.Name? && IsUpperCaseMethod(m.text) ==> m.upper == m.text
    ensures NormalizeMethod(m) == if m.Name? && IsUpperCaseMethod(m.upper) then m.upper else "OTHER"
  {
  }

  // ---- Samples ----

  /** One count in http_requests_total and one observation in the histogram. */
  datatype Sample = Sample(service: string, method_: string, route: string, status: string)

  function SampleFor(service: string, m: Method, route: string, status: StatusCode): Sample {
    Sample(service, NormalizeMethod(m), route, StatusBucket(status))
  }

  /** What a sample says of a request: its service and route as they are, its
      method in upper case if that is a known one, and the class of its status. */
  lemma SampleDescribes(service: string, m: Method, route: string, status: StatusCode)
    requires m.Name? && IsUpperCaseMethod(m.text) ==> m.upper == m.text
    ensures var x := SampleFor(service, m, route, status);
            && x.service == service && x.route == route
            && x.method_ == (if m.Name? && IsUpperCaseMethod(m.upper) then m.upper else "OTHER")
            && forall v | status == Finite(v) && 100.0 <= v < 600.0 ::
                 |x.status| == 3 && x.status[1..] == "xx" && x.status[0] as int - '0' as int == (v / 100.0).Floor
  {
    MethodByUpperCase(m);
    StatusBucketed(status);
    BucketOf(status);
  }
}
