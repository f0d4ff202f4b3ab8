/** The process handler of the Python console: before output reaches the
    console, the prompts the interpreter prints at the start of a chunk are
    cut off and the console's own prompt is set to match. The three prompt
    constants, line-separator conversion and the output formatter live in
    code outside this model and are parameters here. */
module PyConsole {
  import opened Text

  /** Positions of the prompts in `PROMPTS`, the order they are tried in. */
  const Ordinary: nat := 0
  const Indent: nat := 1
  const Help: nat := 2

  type Charset = string

  /** `p` written `n` times in a row. */
  function Repeat(p: string, n: nat): string {
    if n == 0 then [] else p + Repeat(p, n - 1)
  }

  /** How many copies of `p` the string `s` starts with. */
  function LeadingCopies(p: string, s: string): nat
    requires |p| > 0
    decreases |s|
  {
    if StartsWith(s, p) then 1 + LeadingCopies(p, s[|p|..]) else 0
  }

  lemma StartsWithConcat(s: string, a: string, b: string)
    ensures StartsWith(s, a + b) <==> StartsWith(s, a) && StartsWith(s[|a|..], b)
  {
    if StartsWith(s, a) && StartsWith(s[|a|..], b) {
      assert s[..|a + b|] == s[..|a|] + s[|a|..][..|b|];
    }
    if StartsWith(s, a + b) {
      assert s[..|a|] == (a + b)[..|a|];
      assert s[|a|..][..|b|] == s[..|a + b|][|a|..];
    }
  }

  /** `s` starts with `n` copies of `p` exactly when `n` is at most the
      number of leading copies. */
  lemma {:induction false} StartsWithRepeat(p: string, s: string, n: nat)
    requires |p| > 0
    ensures StartsWith(s, Repeat(p, n)) <==> n <= LeadingCopies(p, s)
    decreases n
  {
    if n > 0 {
      StartsWithConcat(s, p, Repeat(p, n - 1));
      if StartsWith(s, p) {
        StartsWithRepeat(p, s[|p|..], n - 1);
      }
    }
  }

  lemma {:induction false} RepeatAppend(p: string, n: nat)
    ensures Repeat(p, n) + p == Repeat(p, n + 1)
    decreases n
  {
    if n > 0 {
      RepeatAppend(p, n - 1);
    }
  }

  /** The first prompt, in `PROMPTS` order, that `s` starts with. */
  function FirstPrompt(prompts: seq<string>, s: string): (r: Option<nat>)
    ensures r.Some? ==> r.value < |prompts| && StartsWith(s, prompts[r.value])
    ensures r.Some? ==> forall j :: 0 <= j < r.value ==> !StartsWith(s, prompts[j])
    ensures r.None? ==> forall j :: 0 <= j < |prompts| ==> !StartsWith(s, prompts[j])
    decreases |prompts|
  {
    if prompts == [] then None
    else if StartsWith(s, prompts[0]) then Some(0)
    else match FirstPrompt(prompts[1..], s)
      case None => None
      case Some(k) => Some(k + 1)
  }

  /** The text left after prompt processing, and the prompt the console
      should show, if a prompt was found. */
  datatype Stripped = Stripped(rest: string, consolePrompt: Option<string>)

  /** The three prompts of the console, none of them empty. */
  predicate ValidPrompts(prompts: seq<string>) {
    |prompts| == 3 && forall j :: 0 <= j < 3 ==> |prompts[j]| > 0
  }

  /** `String.trim()` of Java. */
  function JTrim(s: string): string {
    Trim(s, IsJavaTrimmable)
  }

  /** What `processPrompts` does to a chunk of output: the first prompt it
      starts with is cut off (every leading copy of the ordinary and indent
      prompts, one copy of the help prompt), and the console prompt becomes
      the trimmed prompt, for the indent prompt all its copies together. */
  function StripPrompts(prompts: seq<string>, s: string): (r: Stripped)
    requires ValidPrompts(prompts)
    ensures |r.rest| <= |s| && r.rest == s[|s| - |r.rest|..]
    ensures FirstPrompt(prompts, s).None? ==> r == Stripped(s, None)
    ensures FirstPrompt(prompts, s) == Some(Help) ==>
              s == prompts[Help] + r.rest && r.consolePrompt == Some(JTrim(prompts[Help]))
    ensures FirstPrompt(prompts, s) == Some(Ordinary) || FirstPrompt(prompts, s) == Some(Indent) ==>
              var i := FirstPrompt(prompts, s).value;
              var n := LeadingCopies(prompts[i], s);
              && n >= 1
              && s == Repeat(prompts[i], n) + r.rest
              && !StartsWith(r.rest, prompts[i])
              && r.consolePrompt == Some(JTrim(if i == Indent then Repeat(prompts[i], n) else prompts[i]))
  {
    match FirstPrompt(prompts, s)
    case None => Stripped(s, None)
    case Some(i) =>
      var p := prompts[i];
      if i == Help then
        assert s == p + s[|p|..];
        Stripped(s[|p|..], Some(JTrim(p)))
      else
        var n := LeadingCopies(p, s);
        var copies := Repeat(p, n);
        StartsWithRepeat(p, s, n);
        StartsWithRepeat(p, s, 1);
        StartsWithRepeat(p, s, n + 1);
        RepeatAppend(p, n);
        StartsWithConcat(s, copies, p);
        assert s == copies + s[|copies|..];
        Stripped(s[|copies|..], Some(JTrim(if i == Indent then copies else p)))
  }

  /** The console editor; only its prompt is modelled. `promptChanges` lists
      the values given to `setPrompt`, in order. */
  class LanguageConsole {
    var prompt: string
    var promptChanges: seq<string>

    constructor (prompt: string)
      ensures this.prompt == prompt && promptChanges == []
    {
      this.prompt := prompt;
      promptChanges := [];
    }

    method SetPrompt(p: string)
      modifies this
      ensures prompt == p && promptChanges == old(promptChanges) + [p]
    {
      prompt := p;
      promptChanges := promptChanges + [p];
    }
  }

  /** `PyConsoleProcessHandler`. `forwarded` is what was handed on to the
      output formatter, with its attributes. */
  class ConsoleProcessHandler {
    const prompts: seq<string>
    const charset: Option<Charset>
    const console: LanguageConsole
    var forwarded: seq<(string, string)>

    ghost predicate Valid() {
      ValidPrompts(prompts)
    }

    constructor (console: LanguageConsole, charset: Option<Charset>, ordinary: string, indent: string, help: string)
      requires |ordinary| > 0 && |indent| > 0 && |help| > 0
      ensures Valid()
      ensures this.console == console && this.charset == charset
      ensures prompts == [ordinary, indent, help] && forwarded == []
    {
      this.console := console;
      this.charset := charset;
      prompts := [ordinary, indent, help];
      forwarded := [];
    }

    /** `getCharset()`: the charset given at construction, or the one the
        base process handler would use. */
    function GetCharset(inherited: Charset): (c: Charset)
      ensures charset.Some? ==> c == charset.value
      ensures charset.None? ==> c == inherited
    {
      match charset
      case Some(configured) => configured
      case None => inherited
    }

    /** The `StringBuilder` loop of `processPrompts`: grow `prompt + prompt`
        by one copy while `s` still starts with it, then drop the first copy.
        The result is every leading copy of the prompt. */
    static method MultiPrompt(s: string, prompt: string) returns (multiPrompt: string)
      requires |prompt| > 0 && StartsWith(s, prompt)
      ensures multiPrompt == Repeat(prompt, LeadingCopies(prompt, s))
      ensures StartsWith(s, multiPrompt) && !StartsWith(s, multiPrompt + prompt)
    {
      var builder := prompt + prompt;
      ghost var m: nat := 2;
      assert Repeat(prompt, 1) == prompt + [];
      while StartsWith(s, builder)
        invariant m >= 2 && builder == Repeat(prompt, m)
        invariant StartsWith(s, Repeat(prompt, m - 1))
        decreases |s| - |builder|
      {
        RepeatAppend(prompt, m);
        builder := builder + prompt;
        m := m + 1;
      }
      StartsWithRepeat(prompt, s, m);
      StartsWithRepeat(prompt, s, m - 1);
      multiPrompt := builder[|prompt|..];
      RepeatAppend(prompt, m - 1);
    }

    /** `processPrompts(languageConsole, string)`. */
    method ProcessPrompts(s: string) returns (r: string)
      requires Valid()
      modifies console
      ensures r == StripPrompts(prompts, s).rest
      ensures StripPrompts(prompts, s).consolePrompt.None? ==> unchanged(console)
      ensures StripPrompts(prompts, s).consolePrompt.Some? ==>
                var shown := StripPrompts(prompts, s).consolePrompt.value;
                && console.prompt == shown
                && console.promptChanges ==
                     old(console.promptChanges) + (if old(console.prompt) == shown then [] else [shown])
    {
      r := s;
      var i := 0;
      while i < |prompts|
        invariant 0 <= i <= |prompts|
        invariant r == s && unchanged(console)
        invariant forall j :: 0 <= j < i ==> !StartsWith(s, prompts[j])
      {
        var prompt := prompts[i];
        if StartsWith(r, prompt) {
          assert FirstPrompt(prompts, s) == Some(i);
          if i != Help {
            var multiPrompt := MultiPrompt(r, prompt);
            if i == Indent {
              prompt := multiPrompt;
            }
            r := r[|multiPrompt|..];
          } else {
            r := r[|prompt|..];
          }
          assert r == StripPrompts(prompts, s).rest;
          var currentPrompt := console.prompt;
          var trimmedPrompt := JTrim(prompt);
          assert StripPrompts(prompts, s).consolePrompt == Some(trimmedPrompt);
          if currentPrompt != trimmedPrompt {
            console.SetPrompt(trimmedPrompt);
          }
          break;
        }
        i := i + 1;
      }
    }

    /** The same chunk processed twice changes the console as processing it
        once does: the second time the console already shows the prompt, so
        `setPrompt` is not called again. */
    method ProcessTwice(s: string) returns (first: string, second: string)
      requires Valid()
      modifies console
      ensures first == second == StripPrompts(prompts, s).rest
      ensures StripPrompts(prompts, s).consolePrompt.None? ==> unchanged(console)
      ensures StripPrompts(prompts, s).consolePrompt.Some? ==>
                var shown := StripPrompts(prompts, s).consolePrompt.value;
                && console.prompt == shown
                && console.promptChanges ==
                     old(console.promptChanges) + (if old(console.prompt) == shown then [] else [shown])
    {
      first := ProcessPrompts(s);
      second := ProcessPrompts(s);
    }

    /** `notifyTextAvailable(text, attributes)`: line separators are
        converted first, then the prompts are processed, and what is left is
        handed to the output formatter. */
    method NotifyTextAvailable(text: string, attributes: string, convertLineSeparators: string -> string)
      requires Valid()
      modifies this, console
      ensures forwarded == old(forwarded) + [(StripPrompts(prompts, convertLineSeparators(text)).rest, attributes)]
      ensures StripPrompts(prompts, convertLineSeparators(text)).consolePrompt.None? ==>
                console.prompt == old(console.prompt) && console.promptChanges == old(console.promptChanges)
      ensures StripPrompts(prompts, convertLineSeparators(text)).consolePrompt.Some? ==>
                var shown := StripPrompts(prompts, convertLineSeparators(text)).consolePrompt.value;
                && console.prompt == shown
                && console.promptChanges ==
                     old(console.promptChanges) + (if old(console.prompt) == shown then [] else [shown])
    {
      var s := ProcessPrompts(convertLineSeparators(text));
      forwarded := forwarded + [(s, attributes)];
    }
  }
}
