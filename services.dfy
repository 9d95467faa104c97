/**
 * Listing the services of the host's service manager (systemd or upstart):
 * each line of the manager's listing is split into a service name and its
 * status, and the Flocker services are those whose name starts with
 * `flocker-`.  Both service managers share this logic; they differ only in
 * the command whose output lines are given here.
 */
module Services {
  import opened Wrappers
  import opened Fields

  /**
   * What a service-listing generator produces: the entries it yields and,
   * when it then raises, the line it could not unpack.
   */
  datatype Listing = Listing(services: seq<Service>, malformed: Option<string>)

  /**
   * `all_services`: the entries of the listing's lines in order, up to the
   * first line that cannot be unpacked.
   */
  function AllServices(lines: seq<string>): (l: Listing)
    ensures |l.services| <= |lines|
    ensures forall i :: 0 <= i < |l.services| ==> ParseLine(lines[i]) == Success(l.services[i])
    ensures l.malformed.None? <==> |l.services| == |lines|
    ensures l.malformed.Some? ==>
      ParseLine(lines[|l.services|]).Failure? && l.malformed.value == lines[|l.services|]
  {
    if lines == [] then Listing([], None)
    else
      match ParseLine(lines[0])
      case Failure(line) => Listing([], Some(line))
      case Success(s) =>
        var rest := AllServices(lines[1..]);
        Listing([s] + rest.services, rest.malformed)
  }

  const FlockerPrefix := "flocker-"

  predicate IsFlocker(s: Service) {
    FlockerPrefix <= s.name
  }

  /** `r` is `s` with some entries left out, the others in their order. */
  predicate IsSubsequence<T(==)>(r: seq<T>, s: seq<T>) {
    if r == [] then true
    else if s == [] then false
    else if r[0] == s[0] then IsSubsequence(r[1..], s[1..])
    else IsSubsequence(r, s[1..])
  }

  /** The Flocker entries of `ss`, in order. */
  function FilterFlocker(ss: seq<Service>): (r: seq<Service>)
    ensures forall i :: 0 <= i < |r| ==> IsFlocker(r[i])
    ensures forall i :: 0 <= i < |ss| && IsFlocker(ss[i]) ==> ss[i] in r
    ensures IsSubsequence(r, ss)
    ensures forall s :: multiset(r)[s] == if IsFlocker(s) then multiset(ss)[s] else 0
  {
    if ss == [] then []
    else
      assert multiset(ss) == multiset([ss[0]]) + multiset(ss[1..]) by {
        assert ss == [ss[0]] + ss[1..];
      }
      if IsFlocker(ss[0]) then [ss[0]] + FilterFlocker(ss[1..])
      else FilterFlocker(ss[1..])
  }

  /** Filtering distributes over concatenation. */
  lemma {:induction false} FilterFlockerAppend(a: seq<Service>, b: seq<Service>)
    ensures FilterFlocker(a + b) == FilterFlocker(a) + FilterFlocker(b)
  {
    if a == [] {
      assert a + b == b;
    } else {
      assert (a + b)[1..] == a[1..] + b;
      FilterFlockerAppend(a[1..], b);
    }
  }

  /** A single entry is kept exactly when it is a Flocker service. */
  lemma FilterFlockerSingle(s: Service)
    ensures FilterFlocker([s]) == if IsFlocker(s) then [s] else []
  {
  }

  /**
   * `flocker_services`: the Flocker entries of `all_services`, in order;
   * it raises where `all_services` does.
   */
  function FlockerServices(l: Listing): (r: Listing)
    ensures r.malformed == l.malformed
    ensures forall i :: 0 <= i < |r.services| ==> IsFlocker(r.services[i])
    ensures forall i :: 0 <= i < |l.services| && IsFlocker(l.services[i]) ==> l.services[i] in r.services
    ensures IsSubsequence(r.services, l.services)
    ensures forall s :: multiset(r.services)[s] == if IsFlocker(s) then multiset(l.services)[s] else 0
  {
    Listing(FilterFlocker(l.services), l.malformed)
  }

  /** The line written for one entry in the service-status file. */
  function StatusLine(s: Service): string {
    s.name + " " + s.status
  }

  /** The content of the service-status file: one line per entry, in order. */
  function StatusText(ss: seq<Service>): string {
    if ss == [] then "" else StatusLine(ss[0]) + "\n" + StatusText(ss[1..])
  }

  lemma {:induction false} StatusTextAppend(a: seq<Service>, b: seq<Service>)
    ensures StatusText(a + b) == StatusText(a) + StatusText(b)
  {
    if a == [] {
      assert a + b == b;
    } else {
      assert (a + b)[1..] == a[1..] + b;
      StatusTextAppend(a[1..], b);
    }
  }

  /** A status line written for a parsed entry parses back to that entry. */
  lemma StatusLineReparses(line: string)
    requires ParseLine(line).Success?
    ensures ParseLine(StatusLine(ParseLine(line).value)) == ParseLine(line)
  {
    var s := ParseLine(line).value;
    ParseLineOfFields([], s.name, " ", s.status);
    assert [] + s.name + " " + s.status == StatusLine(s);
  }

  /**
   * Writing the service-status file: one `name + " " + status + "\n"` per
   * entry, in order.
   */
  method ServiceStatusContent(ss: seq<Service>) returns (text: string)
    ensures text == StatusText(ss)
  {
    text := "";
    var i := 0;
    while i < |ss|
      invariant 0 <= i <= |ss|
      invariant text == StatusText(ss[..i])
    {
      assert ss[..i + 1] == ss[..i] + [ss[i]];
      StatusTextAppend(ss[..i], [ss[i]]);
      text := text + (ss[i].name + " " + ss[i].status + "\n");
      i := i + 1;
    }
    assert ss[..i] == ss;
  }
}
