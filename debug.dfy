/** The debugging commands (command/debug.go): health, url and raw. */
module DebugCommands {
  import opened Wrappers
  import opened Text
  import opened Api
  import opened Sessions

  const RawUsage: string := "usage: raw <method> <path> [json-body]"

  predicate HasScheme(url: string) {
    HasPrefix(url, "http://") || HasPrefix(url, "https://")
  }

  /** The URL the url command stores: "http://" is prepended exactly when
      neither scheme is present, and nothing else changes. */
  function NormalizeUrl(url: string): (r: string)
    ensures HasScheme(r)
    ensures HasScheme(url) ==> r == url
    ensures !HasScheme(url) ==> r == "http://" + url
  {
    if !HasPrefix(url, "http://") && !HasPrefix(url, "https://") then "http://" + url else url
  }

  /** Normalising twice is normalising once. */
  lemma NormalizeUrlIdempotent(url: string)
    ensures NormalizeUrl(NormalizeUrl(url)) == NormalizeUrl(url)
  {
  }

  /** The body of a raw request: the arguments after the path, joined by
      single spaces; empty when there are none. Splitting the body on white
      space gives back the words it was joined from. */
  function RawBodyText(args: seq<string>): (body: string)
    requires |args| >= 2
    ensures |args| == 2 ==> body == ""
    ensures (forall i :: 2 <= i < |args| ==> args[i] != [] && NoSpace(args[i])) ==> Fields(body) == args[2..]
  {
    if |args| > 2 then
      FieldsOfJoin(args[2..]);
      Join(args[2..], " ")
    else ""
  }

  function HealthStep(w: World): Step {
    var r := HealthCall(w.wire);
    Step(w.(wire := r.wire), if r.result.Err? then Fail(r.result.message) else Pass, Quiet)
  }

  function UrlStep(w: World, args: seq<string>): Step {
    if |args| == 0 then Step(w, Pass, Quiet)
    else
      var url := NormalizeUrl(args[0]);
      Step(w.(session := w.session.(apiBaseURL := url), wire := w.wire.(baseURL := TrimRightChar(url, '/'))), Pass, Quiet)
  }

  function RawStep(w: World, args: seq<string>, isJson: string -> bool): Step {
    if |args| < 2 then Step(w, Fail(RawUsage), Quiet)
    else
      var r := RawCall(w.wire, ToUpper(args[0]), args[1], RawBodyText(args), isJson);
      Step(w.(wire := r.wire), Discard(r.result), Quiet)
  }

  method Health(s: Session) returns (r: Outcome)
    modifies s.client
    ensures Step(WorldOf(s), r, Quiet) == HealthStep(old(WorldOf(s)))
  {
    var resp := s.client.Health();
    r := if resp.Err? then Fail(resp.message) else Pass;
  }

  method Url(s: Session, args: seq<string>) returns (r: Outcome)
    modifies s, s.client
    ensures Step(WorldOf(s), r, Quiet) == UrlStep(old(WorldOf(s)), args)
  {
    if |args| == 0 {
      return Pass;
    }
    var url := args[0];
    if !HasPrefix(url, "http://") && !HasPrefix(url, "https://") {
      url := "http://" + url;
    }
    s.SetAPIBaseURL(url);
    s.client.SetBaseURL(url);
    r := Pass;
  }

  method Raw(s: Session, args: seq<string>, isJson: string -> bool) returns (r: Outcome)
    modifies s.client
    ensures Step(WorldOf(s), r, Quiet) == RawStep(old(WorldOf(s)), args, isJson)
  {
    if |args| < 2 {
      return Fail(RawUsage);
    }
    var verb := ToUpper(args[0]);
    var path := args[1];
    var body := "";
    if |args| > 2 {
      body := Join(args[2..], " ");
    }
    r := s.client.RawRequest(verb, path, body, isJson);
  }

  // ---------------------------------------------------------------------
  // Properties

  /** url without an argument changes nothing; with one it stores the
      normalised URL in the session and the same URL without trailing '/'
      in the client, and touches nothing else. */
  lemma UrlUpdates(w: World, args: seq<string>)
    ensures UrlStep(w, []) == Step(w, Pass, Quiet)
    ensures |args| > 0 ==>
              var u := UrlStep(w, args).world;
              && u.session == w.session.(apiBaseURL := NormalizeUrl(args[0]))
              && u.wire == w.wire.(baseURL := TrimRightChar(NormalizeUrl(args[0]), '/'))
              && HasScheme(u.session.apiBaseURL)
  {
  }

  /** raw needs a method and a path; an upper-cased method that is not an
      HTTP token is refused without sending anything, and any other is sent
      to the path, with the rest of the words as its body. No session field
      changes. */
  lemma RawSends(w: World, args: seq<string>, isJson: string -> bool)
    ensures |args| < 2 ==> RawStep(w, args, isJson) == Step(w, Fail(RawUsage), Quiet)
    ensures RawStep(w, args, isJson).world.session == w.session
    ensures |args| >= 2 && !ValidMethod(ToUpper(args[0])) ==>
              RawStep(w, args, isJson) == Step(w, Fail(InvalidMethodError(ToUpper(args[0]))), Quiet)
    ensures |args| >= 2 && ValidMethod(ToUpper(args[0])) ==>
              var sent := RawStep(w, args, isJson).world.wire.sent;
              && |sent| == |w.wire.sent| + 1
              && sent[|w.wire.sent|].verb == ToUpper(args[0])
              && sent[|w.wire.sent|].url == w.wire.baseURL + args[1]
              && sent[|w.wire.sent|].body == RawBody(RawBodyText(args), isJson)
  {
  }

  /** health changes no session field. */
  lemma HealthReadsOnly(w: World)
    ensures HealthStep(w).world.session == w.session
    ensures |HealthStep(w).world.wire.sent| == |w.wire.sent| + 1
  {
  }
}
