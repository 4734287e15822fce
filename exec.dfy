/**
 * OnDoneExecCommand (lib/helpers.py:72-108): the editor's build-output command
 * extended with a display name, completion callbacks and an optional list that
 * collects everything written to the output panel.
 *
 * The base command of the editor is not part of this model. What it does is
 * recorded as events in `log`: launching a process (`Launched`), writing text
 * to the output panel (`Shown`), calling a completion callback (`Called`) and
 * its own end-of-process handling (`BaseFinished`). What the process' `poll()`
 * returns is an input (the process class is not part of this model), written
 * as `None` or `Some(code)`.
 */
module Exec {
  import opened Wrappers
  import opened Text
  import opened Settings

  /** What the command does through the editor and the operating system, in order. */
  datatype Event =
    | Launched(shellCmd: string, workingDir: Option<string>)
    | Shown(text: string)
    | Called(callback: nat)
    | BaseFinished

  /**
   * The `on_done` field: a single callable or `None` (One), or a list whose
   * entries are callables or `None` (Many). A callable is named by a number.
   */
  datatype OnDone = One(callback: Option<nat>) | Many(callbacks: seq<Option<nat>>)

  /** The list `run_callbacks` iterates over: a non-list is wrapped, a list is kept. */
  function CallbackList(d: OnDone): seq<Option<nat>>
  {
    match d
    case One(c) => [c]
    case Many(cs) => cs
  }

  /** The calls made for the entries `cs`, in order, skipping `None`. */
  function Calls(cs: seq<Option<nat>>): seq<Event>
  {
    if cs == [] then []
    else Calls(cs[..|cs| - 1]) + (if cs[|cs| - 1].Some? then [Called(cs[|cs| - 1].value)] else [])
  }

  /** Calls distributes over concatenation: the calls of `a` all come before those of `b`. */
  lemma {:induction false} CallsAppend(a: seq<Option<nat>>, b: seq<Option<nat>>)
    ensures Calls(a + b) == Calls(a) + Calls(b)
    decreases |b|
  {
    if b == [] {
      assert a + b == a;
    } else {
      var b' := b[..|b| - 1];
      assert (a + b)[..|a + b| - 1] == a + b';
      assert (a + b)[|a + b| - 1] == b[|b| - 1];
      CallsAppend(a, b');
    }
  }

  /** The calls for a list starting with `c`: `c`'s call (if any) and then the rest. */
  lemma CallsCons(c: Option<nat>, rest: seq<Option<nat>>)
    ensures Calls([c] + rest) == (if c.Some? then [Called(c.value)] else []) + Calls(rest)
  {
    CallsAppend([c], rest);
    assert [c][..0] == [];
  }

  /**
   * Every non-`None` entry is called exactly as often as it occurs in the list,
   * `None` entries are skipped, and nothing else happens.
   */
  lemma {:induction false} CallsCount(cs: seq<Option<nat>>, id: nat)
    ensures multiset(Calls(cs))[Called(id)] == multiset(cs)[Some(id)]
    ensures |Calls(cs)| == |cs| - multiset(cs)[None]
    ensures forall e :: e in Calls(cs) ==> e.Called? && Some(e.callback) in cs
    decreases |cs|
  {
    if cs != [] {
      var init := cs[..|cs| - 1];
      var last := cs[|cs| - 1];
      assert cs == init + [last];
      CallsCount(init, id);
      assert multiset(cs) == multiset(init) + multiset{last};
    }
  }

  /** `"%s" % display_name`: the name itself, or `None` when there is none. */
  function DisplayText(name: Option<string>): string
  {
    match name
    case None => "None"
    case Some(n) => n
  }

  /** `not proc.poll() and self.display_name`: `poll()` gave a falsy value (`None` or 0) and the name is non-empty. */
  predicate Rewrites(name: Option<string>, poll: Option<int>)
  {
    (poll.None? || poll == Some(0)) && name.Some? && name.value != []
  }

  /**
   * The text `append_string` passes on for `chunk`: under the rewrite condition
   * `"\n\n"` and the chunk with its first `Finished` replaced through the `re`
   * template `<name> \1`; otherwise the chunk unchanged. None when that
   * template cannot be expanded (`re.sub` raises).
   */
  function Forward(name: Option<string>, poll: Option<int>, chunk: string): Option<string>
  {
    if !Rewrites(name, poll) then Some(chunk)
    else
      match Expand(name.value + " \\1", ["Finished"])
      case Err(_) => None
      case Ok(repl) => Some("\n\n" + ReplaceFirst(chunk, "Finished", repl))
  }

  /**
   * For a name without backslashes the forwarded chunk is `"\n\n"` and the chunk
   * with only its first `Finished` turned into `<name> Finished`; a chunk without
   * `Finished` only gains the prefix; without the rewrite condition the chunk
   * passes unchanged.
   */
  lemma ForwardSpec(name: Option<string>, poll: Option<int>, chunk: string)
    requires name.Some? ==> '\\' !in name.value
    ensures !Rewrites(name, poll) ==> Forward(name, poll, chunk) == Some(chunk)
    ensures Rewrites(name, poll) && FirstIndex(chunk, "Finished").None? ==>
      Forward(name, poll, chunk) == Some("\n\n" + chunk)
    ensures Rewrites(name, poll) && FirstIndex(chunk, "Finished").Some? ==>
      var i := FirstIndex(chunk, "Finished").value;
      Forward(name, poll, chunk) ==
        Some("\n\n" + chunk[..i] + name.value + " Finished" + chunk[i + 8..])
  {
    if Rewrites(name, poll) {
      var n := name.value;
      NameTemplate(n, "Finished");
      FinishedSpelled(n);
      match FirstIndex(chunk, "Finished")
      case None =>
      case Some(i) => SpliceRegrouped(chunk, i, n);
    }
  }

  lemma FinishedSpelled(n: string)
    ensures n + " " + "Finished" == n + " Finished"
  {
  }

  lemma SpliceRegrouped(chunk: string, i: nat, n: string)
    requires i + 8 <= |chunk|
    ensures "\n\n" + (chunk[..i] + (n + " Finished") + chunk[i + 8..]) ==
      "\n\n" + chunk[..i] + n + " Finished" + chunk[i + 8..]
  {
  }

  /** The shell comment marker of the platform: `::` on Windows, `#` elsewhere. */
  function Comment(p: Platform): string
  {
    if p == Windows then "::" else "#"
  }

  /** The text of the shell command `run_message` launches: a comment naming the command and the message. */
  function MessageCommand(p: Platform, name: Option<string>, message: string): string
  {
    Comment(p) + " [" + DisplayText(name) + "] " + message
  }

  /** The message command is a comment line: it starts with the platform's marker and ends with the message. */
  lemma MessageCommandIsComment(p: Platform, name: Option<string>, message: string)
    ensures StartsWith(MessageCommand(p, name, message), Comment(p))
    ensures EndsWith(MessageCommand(p, name, message), message)
  {
    var c := MessageCommand(p, name, message);
    assert c == Comment(p) + (" [" + DisplayText(name) + "] " + message);
    assert c[..|Comment(p)|] == Comment(p);
  }

  /** The banner `run` writes after launching: `[<name> Started]` and a blank line. */
  function Banner(name: Option<string>): string
  {
    "[" + DisplayText(name) + " Started]\n\n"
  }

  /** A Python list that collects the forwarded output (the `stdout` argument). */
  class Capture {
    var lines: seq<string>

    constructor()
      ensures lines == []
    {
      lines := [];
    }
  }

  class ExecCommand {
    /** `sublime.platform()`, fixed for the session. */
    const platform: Platform
    var displayName: Option<string>
    var onDone: OnDone
    /** The `stdout` list, or null when none was given (or it is not a list). */
    const stdout: Capture?
    /** What the command has done through the editor and the operating system. */
    var log: seq<Event>

    constructor(platform: Platform, displayName: Option<string>, onDone: OnDone, stdout: Capture?)
      ensures this.platform == platform && this.displayName == displayName
      ensures this.onDone == onDone && this.stdout == stdout
      ensures log == []
    {
      this.platform := platform;
      this.displayName := displayName;
      this.onDone := onDone;
      this.stdout := stdout;
      log := [];
    }

    /**
     * `append_string(proc, chunk)` for a process whose `poll()` is `poll`: the
     * forwarded text is shown and, when there is a `stdout` list, appended to it.
     * `raised` when the display name is not a valid `re` template; then nothing
     * is shown or collected.
     */
    method AppendString(poll: Option<int>, chunk: string) returns (raised: bool)
      modifies this`log, stdout
      ensures raised <==> Forward(displayName, poll, chunk).None?
      ensures !raised ==> log == old(log) + [Shown(Forward(displayName, poll, chunk).value)]
      ensures !raised && stdout != null ==>
        stdout.lines == old(stdout.lines) + [Forward(displayName, poll, chunk).value]
      ensures raised ==> log == old(log)
      ensures stdout != null && raised ==> stdout.lines == old(stdout.lines)
    {
      var text := chunk;
      if Rewrites(displayName, poll) {
        var repl := Expand(displayName.value + " \\1", ["Finished"]);
        if repl.Err? {
          return true;
        }
        text := "\n\n" + ReplaceFirst(text, "Finished", repl.value);
      }
      log := log + [Shown(text)];
      if stdout != null {
        stdout.lines := stdout.lines + [text];
      }
      return false;
    }

    /**
     * `run(shell_cmd=…, working_dir=…)`: the base command launches the process,
     * then the banner is passed through AppendString with the new process' `poll()`.
     */
    method Run(shellCmd: string, workingDir: Option<string>, poll: Option<int>) returns (raised: bool)
      modifies this`log, stdout
      ensures raised <==> Forward(displayName, poll, Banner(displayName)).None?
      ensures !raised ==>
        log == old(log) + [Launched(shellCmd, workingDir), Shown(Forward(displayName, poll, Banner(displayName)).value)]
      ensures !raised && stdout != null ==>
        stdout.lines == old(stdout.lines) + [Forward(displayName, poll, Banner(displayName)).value]
      ensures raised ==> log == old(log) + [Launched(shellCmd, workingDir)]
      ensures stdout != null && raised ==> stdout.lines == old(stdout.lines)
    {
      log := log + [Launched(shellCmd, workingDir)];
      raised := AppendString(poll, Banner(displayName));
    }

    /**
     * `run_message(message)`: runs a shell comment naming the command and the
     * message, then passes the message itself through AppendString. The two
     * `poll()` values are those seen by the banner and by the message.
     */
    method RunMessage(message: string, pollAtStart: Option<int>, pollAtMessage: Option<int>)
      returns (raised: bool)
      modifies this`log, stdout
      ensures var banner := Forward(displayName, pollAtStart, Banner(displayName));
        var shown := Forward(displayName, pollAtMessage, message);
        && (raised <==> banner.None? || shown.None?)
        && (banner.None? ==> log == old(log) + [Launched(MessageCommand(platform, displayName, message), None)])
        && (banner.Some? && shown.None? ==>
              log == old(log) + [Launched(MessageCommand(platform, displayName, message), None), Shown(banner.value)])
        && (!raised ==>
              log == old(log) + [Launched(MessageCommand(platform, displayName, message), None),
                                 Shown(banner.value), Shown(shown.value)])
        && (stdout != null ==>
              stdout.lines == old(stdout.lines)
                + (if banner.Some? then [banner.value] else [])
                + (if !raised then [shown.value] else []))
    {
      raised := Run(MessageCommand(platform, displayName, message), None, pollAtStart);
      if raised {
        return;
      }
      raised := AppendString(pollAtMessage, message);
    }

    /**
     * `run_callbacks()`: `on_done` becomes a list (a non-list is wrapped, a list
     * kept) and every non-`None` entry is called once, in list order.
     */
    method RunCallbacks()
      modifies this`onDone, this`log
      ensures onDone == Many(CallbackList(old(onDone)))
      ensures log == old(log) + Calls(CallbackList(old(onDone)))
    {
      if onDone.One? {
        onDone := Many([onDone.callback]);
      }
      var cs := onDone.callbacks;
      var i := 0;
      while i < |cs|
        invariant 0 <= i <= |cs|
        invariant onDone == Many(cs) && cs == CallbackList(old(onDone))
        invariant log == old(log) + Calls(cs[..i])
      {
        assert cs[..i + 1][..i] == cs[..i];
        if cs[i].Some? {
          log := log + [Called(cs[i].value)];
        }
        i := i + 1;
      }
      assert cs[..|cs|] == cs;
    }

    /** `on_finished(proc)`: the callbacks run first, then the base command's own handling. */
    method OnFinished()
      modifies this`onDone, this`log
      ensures onDone == Many(CallbackList(old(onDone)))
      ensures log == old(log) + Calls(CallbackList(old(onDone))) + [BaseFinished]
    {
      RunCallbacks();
      log := log + [BaseFinished];
    }
  }
}
