/**
 * internal/cli: what the interactive commands say to the service, in terms of what the user types. The tape holds the
 * inputs when a command starts, left what it leaves of them, entries what it adds to the shell's log.
 */
module Dialogues {
  import opened Domain
  import opened Calls
  import opened Registry

  /** What a prompt gives back. */
  datatype Input = Line(text: string) | Interrupt | EndOfInput | ReadFailed | ContextDone

  datatype Error = Nil | Aborted | Eof | Refused(response: Response) | Invalid | Unreadable | Killed

  /** What the shell did: a call with its answer, or the start of a command. */
  datatype Entry = Asked(call: Call, response: Response, env: Env) | Ran(command: Command, token: string)

  const MAX_CODE_PROMPTS := 3

  // ----- Reading -----

  /** The error of a read; an interrupt is no failure but a wish to stop. */
  function ReadError(input: Input): Error {
    match input
    case Line(_) => Nil
    case Interrupt => Aborted
    case EndOfInput => Eof
    case _ => Unreadable
  }

  /** The next k reads give a line each. */
  predicate AllLines(tape: seq<Input>, k: nat) {
    k <= |tape| && forall i | 0 <= i < k :: tape[i].Line?
  }

  /** One of the next k reads gives no line, and the command ends with its error. */
  ghost predicate BreaksOff(tape: seq<Input>, left: seq<Input>, k: nat, err: Error) {
    exists i: nat :: i < k && AllLines(tape, i) && BreaksAt(tape, left, i, err)
  }

  predicate BreaksAt(tape: seq<Input>, left: seq<Input>, i: nat, err: Error) {
    if i >= |tape| then err == Killed
    else !tape[i].Line? && err == ReadError(tape[i]) && left == tape[i + 1..]
  }

  // ----- Prompts for codes -----

  /** What a prompt for codes is about. */
  datatype Flow =
    | SignInCode(challengeID: string, info: string)
    | Enrollment(userID: int, keep: int, token: string)
    | Disablement(userID: int, keep: int, token: string)

  /** The call with this code; a change of the second factor keeps the current session. */
  function CodeCall(flow: Flow, code: string): Call {
    match flow
    case SignInCode(id, info) => CComplete(id, code, info)
    case Enrollment(userID, keep, _) => CConfirm(userID, code, keep)
    case Disablement(userID, keep, _) => CDisable(userID, code, keep)
  }

  /** The call that gives up. */
  function GivingUp(flow: Flow): Option<Call> {
    match flow
    case SignInCode(id, _) => Some(CAbandon(id))
    case Enrollment(userID, _, _) => Some(CCancel(userID))
    case Disablement(_, _, _) => None
  }

  predicate TypedCode(words: string -> seq<string>, input: Input) {
    input.Line? && words(input.text) != []
  }

  /** What the service is asked on this input: a blank line and an interrupt give up, a failed read asks nothing. */
  function Said(words: string -> seq<string>, flow: Flow, input: Input): Option<Call> {
    if TypedCode(words, input) then Some(CodeCall(flow, input.text))
    else if input.Line? || input.Interrupt? then GivingUp(flow)
    else None
  }

  predicate RejectedCode(flow: Flow, r: Response) {
    if flow.SignInCode? then r.BadCode? else r == InvalidTOTPCode
  }

  /** The typed code was asked of the service, and rejected. */
  predicate Rejection(words: string -> seq<string>, flow: Flow, input: Input, entry: Entry) {
    && TypedCode(words, input) && entry.Asked? && entry.call == CodeCall(flow, input.text)
    && RejectedCode(flow, entry.response)
  }

  /** A login asks as long as it takes; a change of the second factor three times. */
  predicate Room(flow: Flow, n: nat) {
    flow.SignInCode? || n < MAX_CODE_PROMPTS
  }

  predicate Asks(entries: seq<Entry>, i: nat, c: Call) {
    i < |entries| && entries[i].Asked? && entries[i].call == c
  }

  /** What follows a code that was not rejected: an accepted change of the second factor looks at the session once. */
  predicate Judged(flow: Flow, entries: seq<Entry>, err: Error)
    requires entries != [] && entries[0].Asked?
  {
    var r := entries[0].response;
    if flow.SignInCode? then |entries| == 1 && err == if r.SignedIn? then Nil else Refused(r)
    else if r == Done then
      if err == Killed then |entries| == 1
      else |entries| == 2 && Asks(entries, 1, CResolve(flow.token)) && err == Nil
    else |entries| == 1 && err == Refused(r)
  }

  predicate GaveUp(flow: Flow, input: Input, r: Response, err: Error) {
    err == if input.Interrupt? then Aborted else if flow.Enrollment? && r != Done then Refused(r) else Nil
  }

  /** How the prompt ends after its rejected codes. */
  predicate Ends(words: string -> seq<string>, flow: Flow, tape: seq<Input>, left: seq<Input>, entries: seq<Entry>,
                 room: bool, err: Error)
  {
    if !room then
      && left == tape
      && if !flow.Enrollment? then entries == [] && err == Nil
         else if entries == [] then err == Killed
         else |entries| == 1 && Asks(entries, 0, CCancel(flow.userID)) && GaveUp(flow, Line(""), entries[0].response, err)
    else if tape == [] then entries == [] && err == Killed
    else
      && left == tape[1..]
      && var said := Said(words, flow, tape[0]);
         if said.None? then entries == [] && err == ReadError(tape[0])
         else if entries == [] then err == Killed
         else
           && Asks(entries, 0, said.value)
           && if TypedCode(words, tape[0]) then !RejectedCode(flow, entries[0].response) && Judged(flow, entries, err)
              else |entries| == 1 && GaveUp(flow, tape[0], entries[0].response, err)
  }

  ghost predicate AllRejected(words: string -> seq<string>, flow: Flow, tape: seq<Input>, entries: seq<Entry>) {
    |entries| <= |tape| && forall i | 0 <= i < |entries| :: Rejection(words, flow, tape[i], entries[i])
  }

  /** A prompt for codes: n typed codes were rejected, and then it ended. */
  ghost predicate Codes(words: string -> seq<string>, flow: Flow, tape: seq<Input>, left: seq<Input>, entries: seq<Entry>,
                        n: nat, err: Error)
  {
    && n <= |entries| && n <= |tape| && (flow.SignInCode? || n <= MAX_CODE_PROMPTS)
    && AllRejected(words, flow, tape, entries[..n])
    && Ends(words, flow, tape[n..], left, entries[n..], Room(flow, n), err)
  }

  ghost predicate CodesAsked(words: string -> seq<string>, flow: Flow, tape: seq<Input>, left: seq<Input>,
                          entries: seq<Entry>, err: Error)
  {
    exists n: nat :: Codes(words, flow, tape, left, entries, n, err)
  }

  lemma NoneRejected(words: string -> seq<string>, flow: Flow, tape: seq<Input>)
    ensures AllRejected(words, flow, tape, [])
  {
  }

  lemma OneMoreRejected(words: string -> seq<string>, flow: Flow, tape: seq<Input>, entries: seq<Entry>, entry: Entry)
    requires AllRejected(words, flow, tape, entries) && |entries| < |tape|
    requires Rejection(words, flow, tape[|entries|], entry)
    ensures AllRejected(words, flow, tape, entries + [entry])
  {
  }

  lemma PromptEnds(words: string -> seq<string>, flow: Flow, tape: seq<Input>, left: seq<Input>, rejected: seq<Entry>,
                   rest: seq<Entry>, err: Error)
    requires AllRejected(words, flow, tape, rejected) && (flow.SignInCode? || |rejected| <= MAX_CODE_PROMPTS)
    requires Ends(words, flow, tape[|rejected|..], left, rest, Room(flow, |rejected|), err)
    ensures CodesAsked(words, flow, tape, left, rejected + rest, err)
  {
    hide Ends, Rejection;
    var entries := rejected + rest;
    assert entries[..|rejected|] == rejected && entries[|rejected|..] == rest;
    assert Codes(words, flow, tape, left, entries, |rejected|, err);
  }

  /** After three rejected codes an enrollment is thrown away. */
  lemma CancelEnds(words: string -> seq<string>, flow: Flow, tape: seq<Input>, entries: seq<Entry>, err: Error)
    requires flow.Enrollment?
    requires if entries == [] then err == Killed
             else
               && |entries| == 1 && Asks(entries, 0, CCancel(flow.userID))
               && err == if entries[0].response == Done then Nil else Refused(entries[0].response)
    ensures Ends(words, flow, tape, tape, entries, false, err)
  {
  }

  lemma RejectedAreCodes(words: string -> seq<string>, flow: Flow, tape: seq<Input>, entries: seq<Entry>)
    requires AllRejected(words, flow, tape, entries)
    ensures forall i | 0 <= i < |entries| ::
      entries[i].Asked? && !entries[i].call.CResolve? && !entries[i].response.SignedIn?
  {
    forall i | 0 <= i < |entries|
      ensures entries[i].Asked? && !entries[i].call.CResolve? && !entries[i].response.SignedIn?
    {
      assert Rejection(words, flow, tape[i], entries[i]);
    }
  }

  /** A login's codes are all for its challenge, each but the last one rejected. */
  lemma CodesAreForOneChallenge(words: string -> seq<string>, id: string, info: string, tape: seq<Input>, left: seq<Input>,
                                entries: seq<Entry>, err: Error, i: nat)
    requires CodesAsked(words, SignInCode(id, info), tape, left, entries, err) && i < |entries|
    ensures entries[i].Asked?
    ensures (entries[i].call.CComplete? && entries[i].call.challengeID == id) || entries[i].call == CAbandon(id)
    ensures i < |entries| - 1 ==> entries[i].call.CComplete? && entries[i].response.BadCode?
  {
    var n: nat :| Codes(words, SignInCode(id, info), tape, left, entries, n, err);
    if i < n {
      assert Rejection(words, SignInCode(id, info), tape[i], entries[..n][i]);
    } else {
      assert entries[n..][0] == entries[n];
    }
  }

  // ----- Commands -----

  /** Register: the given or typed name, and the password typed twice. */
  ghost predicate RegisterDialogue(args: seq<string>, tape: seq<Input>, left: seq<Input>, entries: seq<Entry>, err: Error) {
    var k := if args == [] then 3 else 2;
    if !AllLines(tape, k) then entries == [] && BreaksOff(tape, left, k, err)
    else
      var name := if args == [] then tape[0].text else args[0];
      && left == tape[k..]
      && if tape[k - 2].text != tape[k - 1].text then entries == [] && err == Invalid
         else if entries == [] then err == Killed
         else
           && |entries| == 1 && Asks(entries, 0, CRegister(name, tape[k - 1].text))
           && err == if entries[0].response.Created? then Nil else Refused(entries[0].response)
  }

  /** Login: the given or typed name and the typed password, and then codes if a code is asked for. */
  ghost predicate LoginDialogue(words: string -> seq<string>, info: string, args: seq<string>, tape: seq<Input>,
                                left: seq<Input>, entries: seq<Entry>, err: Error)
  {
    var k := if args == [] then 2 else 1;
    if !AllLines(tape, k) then entries == [] && BreaksOff(tape, left, k, err)
    else
      var name := if args == [] then tape[0].text else args[0];
      if entries == [] then err == Killed && left == tape[k..]
      else
        && Asks(entries, 0, CAuthenticate(name, tape[k - 1].text, info))
        && var r := entries[0].response;
           if r.CodeRequired? then CodesAsked(words, SignInCode(r.challengeID, info), tape[k..], left, entries[1..], err)
           else |entries| == 1 && left == tape[k..] && err == if r.SignedIn? then Nil else Refused(r)
  }

  /** Enable-2fa: an enrollment is started, and then codes are asked for. */
  ghost predicate EnrollmentDialogue(words: string -> seq<string>, flow: Flow, tape: seq<Input>, left: seq<Input>,
                                     entries: seq<Entry>, err: Error)
  {
    && flow.Enrollment?
    && if entries == [] then err == Killed && left == tape
       else
         && Asks(entries, 0, CBegin(flow.userID))
         && if entries[0].response.Enrolled? then CodesAsked(words, flow, tape, left, entries[1..], err)
            else |entries| == 1 && left == tape && err == Refused(entries[0].response)
  }

  /** Disable-2fa: codes are asked for, if the second factor is on. */
  ghost predicate DisablementDialogue(words: string -> seq<string>, flow: Flow, enabled: bool, tape: seq<Input>,
                                      left: seq<Input>, entries: seq<Entry>, err: Error)
  {
    && flow.Disablement?
    && if enabled then CodesAsked(words, flow, tape, left, entries, err)
       else entries == [] && left == tape && err == Refused(NotEnabled)
  }

  /** Logout: one call; only an end that the service reports is an end. */
  predicate LogoutDialogue(token: string, tape: seq<Input>, left: seq<Input>, entries: seq<Entry>, err: Error) {
    && left == tape
    && if entries == [] then err == Killed
       else
         && |entries| == 1 && Asks(entries, 0, CLogout(token))
         && err == if entries[0].response == Done then Nil else Refused(entries[0].response)
  }
}
