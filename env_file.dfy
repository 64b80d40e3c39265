/** `load_env_if_present()` of the gold daily script: `KEY=VALUE` lines from
    `../.env` and then `./.env` fill in variables the environment does not
    already have. */
module EnvFile {
  import opened Wrappers
  import opened Text
  import opened Settings

  /** The position of the first `c` in `s`. */
  function FirstIndex(s: string, c: char): (r: Option<nat>)
    ensures r.Some? ==> r.value < |s| && s[r.value] == c && c !in s[..r.value]
    ensures r.None? ==> c !in s
  {
    if s == [] then None
    else if s[0] == c then Some(0)
    else match FirstIndex(s[1..], c)
      case None => None
      case Some(i) =>
        assert s[..i + 1] == [s[0]] + s[1..][..i];
        Some(i + 1)
  }

  /** One line of a `.env` file: skipped when blank after stripping, when it
      starts with '#', or when it has no '='; otherwise split at the FIRST
      '=' (so the value may contain more of them) and kept only when both
      raw halves are non-empty. Key and value are stored stripped, and
      neither can be empty. */
  function EnvEntry(raw: string): (r: Option<(string, string)>)
    ensures r.Some? ==> r.value.0 != "" && IsStripped(r.value.0) && '=' !in r.value.0
    ensures r.Some? ==> r.value.1 != "" && IsStripped(r.value.1)
    ensures r.Some? ==> Strip(raw) != "" && Strip(raw)[0] != '#' && '=' in Strip(raw)
  {
    var line := Strip(raw);
    if line == [] || line[0] == '#' then None
    else match FirstIndex(line, '=')
      case None => None
      case Some(i) =>
        if i == 0 || i + 1 == |line| then None
        else
          HalvesNotBlank(line, i);
          Some((Strip(line[..i]), Strip(line[i + 1..])))
  }

  /** Both sides of an '=' inside a stripped line keep something after
      stripping, and the key side has no '=' if the '=' was the first. */
  lemma HalvesNotBlank(line: string, i: nat)
    requires IsStripped(line) && 0 < i < |line| - 1
    requires '=' !in line[..i]
    ensures Strip(line[..i]) != "" && '=' !in Strip(line[..i])
    ensures Strip(line[i + 1..]) != ""
  {
    var key, value := line[..i], line[i + 1..];
    assert key[0] == line[0];
    assert value[|value| - 1] == line[|line| - 1];
    StripWithout(key, '=');
  }

  /** The first `c` of `pre + [c] + post` is the one after `pre` when `pre`
      has none. */
  lemma {:induction false} FirstIndexAfter(pre: string, c: char, post: string)
    requires c !in pre
    ensures FirstIndex(pre + [c] + post, c) == Some(|pre|)
  {
    if pre != [] {
      assert (pre + [c] + post)[0] == pre[0];
      assert (pre + [c] + post)[1..] == pre[1..] + [c] + post;
      FirstIndexAfter(pre[1..], c, post);
    }
  }

  /** `EnvEntry` on a line whose stripped form has its first '=' strictly
      inside it. */
  lemma EnvEntrySplit(raw: string, i: nat)
    requires Strip(raw) != [] && Strip(raw)[0] != '#'
    requires FirstIndex(Strip(raw), '=') == Some(i) && 0 < i < |Strip(raw)| - 1
    ensures EnvEntry(raw) == Some((Strip(Strip(raw)[..i]), Strip(Strip(raw)[i + 1..])))
  {
  }

  lemma JoinedLineStripped(key: string, value: string)
    requires key != "" && IsStripped(key) && value != "" && IsStripped(value)
    ensures Strip(key + "=" + value) == key + "=" + value
    ensures (key + "=" + value)[0] == key[0]
  {
    var line := key + "=" + value;
    assert line[0] == key[0] && line[|line| - 1] == value[|value| - 1];
  }

  /** A line written as `KEY=VALUE` from a clean key and value reads back as
      that pair, whatever the value contains. */
  lemma EnvEntryRoundTrip(key: string, value: string)
    requires key != "" && IsStripped(key) && '=' !in key && key[0] != '#'
    requires value != "" && IsStripped(value)
    ensures EnvEntry(key + "=" + value) == Some((key, value))
  {
    var line := key + "=" + value;
    JoinedLineStripped(key, value);
    FirstIndexAfter(key, '=', value);
    assert line[..|key|] == key && line[|key| + 1..] == value;
    EnvEntrySplit(line, |key|);
  }

  /** A file's lines as `EnvEntry` reads them, in order. */
  function Entries(lines: seq<string>): (r: seq<Option<(string, string)>>)
    ensures |r| == |lines|
  {
    if lines == [] then [] else [EnvEntry(lines[0])] + Entries(lines[1..])
  }

  type Entry = Option<(string, string)>

  /** The value of the first entry that defines `key`. */
  function FirstValue(entries: seq<Entry>, key: string): Option<string> {
    if entries == [] then None
    else match entries[0]
      case Some((k, v)) => if k == key then Some(v) else FirstValue(entries[1..], key)
      case None => FirstValue(entries[1..], key)
  }

  /** Whatever a file defines is non-empty and stripped. */
  lemma {:induction false} FirstValueClean(lines: seq<string>, key: string)
    ensures FirstValue(Entries(lines), key).Some? ==>
              FirstValue(Entries(lines), key).value != "" && IsStripped(FirstValue(Entries(lines), key).value)
  {
    if lines != [] {
      FirstValueClean(lines[1..], key);
    }
  }

  lemma {:induction false} FirstValueAppend(a: seq<Entry>, b: seq<Entry>, key: string)
    ensures FirstValue(a + b, key) == if FirstValue(a, key).Some? then FirstValue(a, key) else FirstValue(b, key)
  {
    if a != [] {
      assert (a + b)[0] == a[0] && (a + b)[1..] == a[1..] + b;
      FirstValueAppend(a[1..], b, key);
    } else {
      assert a + b == b;
    }
  }

  /** The entries of every candidate file that exists, in the order tried. */
  function PresentEntries(files: seq<Option<seq<string>>>): seq<Entry> {
    if files == [] then []
    else PresentEntries(files[..|files| - 1]) + (match files[|files| - 1] case Some(lines) => Entries(lines) case None => [])
  }

  /** What loading `entries` into `env` must leave behind: every variable
      that was already set keeps its value, and a variable that was not set
      gets the value of the first entry defining it, if any. */
  ghost predicate LoadedFrom(result: Env, env: Env, entries: seq<Entry>) {
    && (forall k :: k in env ==> k in result && result[k] == env[k])
    && (forall k :: k !in env ==> (k in result <==> FirstValue(entries, k).Some?))
    && (forall k :: k !in env && k in result ==> result[k] == FirstValue(entries, k).value)
  }

  /** Loading twice in a row is loading the concatenation once. */
  lemma LoadedFromTwice(env: Env, mid: Env, result: Env, a: seq<Entry>, b: seq<Entry>)
    requires LoadedFrom(mid, env, a) && LoadedFrom(result, mid, b)
    ensures LoadedFrom(result, env, a + b)
  {
    forall k | k !in env
      ensures (k in result <==> FirstValue(a + b, k).Some?)
      ensures k in result ==> result[k] == FirstValue(a + b, k).value
    {
      FirstValueAppend(a, b, k);
    }
  }

  /** One line read: a new key from it is added, anything else is ignored. */
  lemma LoadOneEntry(result: Env, env: Env, done: seq<Entry>, entry: Entry, next: Env)
    requires LoadedFrom(result, env, done)
    requires next == match entry
                     case Some((k, v)) => if k !in result then result[k := v] else result
                     case None => result
    ensures LoadedFrom(next, env, done + [entry])
  {
    forall key | key !in env
      ensures (key in next <==> FirstValue(done + [entry], key).Some?)
      ensures key in next ==> next[key] == FirstValue(done + [entry], key).value
    {
      FirstValueAppend(done, [entry], key);
      assert [entry][1..] == [];
    }
  }

  lemma PresentEntriesSnoc(files: seq<Option<seq<string>>>, n: nat)
    requires n < |files|
    ensures PresentEntries(files[..n + 1]) ==
            PresentEntries(files[..n]) + (match files[n] case Some(lines) => Entries(lines) case None => [])
  {
    assert files[..n + 1][..n] == files[..n];
  }

  /** The inner loop over one file's lines. Reading a line has no effect
      on the environment, so the lines are read first, by `Entries`, and
      the entries loaded in order. */
  method LoadLines(env: Env, lines: seq<string>) returns (result: Env)
    ensures LoadedFrom(result, env, Entries(lines))
  {
    result := LoadEntries(env, Entries(lines));
  }

  /** Each entry in turn: a key not yet present is added, anything else is
      skipped. */
  method LoadEntries(env: Env, entries: seq<Entry>) returns (result: Env)
    ensures LoadedFrom(result, env, entries)
  {
    result := env;
    var i := 0;
    while i < |entries|
      invariant 0 <= i <= |entries|
      invariant LoadedFrom(result, env, entries[..i])
    {
      var before := result;
      var entry := entries[i];
      if entry.Some? {
        var k, v := entry.value.0, entry.value.1;
        if k !in result {
          result := result[k := v];
        }
      }
      LoadStep(before, env, entries, i, result);
      i := i + 1;
    }
    assert entries[..i] == entries;
  }

  /** The loop step of `LoadLines`, on the `i`-th entry. */
  lemma LoadStep(result: Env, env: Env, entries: seq<Entry>, i: nat, next: Env)
    requires i < |entries| && LoadedFrom(result, env, entries[..i])
    requires next == match entries[i]
                     case Some((k, v)) => if k !in result then result[k := v] else result
                     case None => result
    ensures LoadedFrom(next, env, entries[..i + 1])
  {
    LoadOneEntry(result, env, entries[..i], entries[i], next);
    assert entries[..i + 1] == entries[..i] + [entries[i]];
  }

  lemma {:induction false} PresentEntriesClean(files: seq<Option<seq<string>>>, key: string)
    ensures FirstValue(PresentEntries(files), key).Some? ==>
              FirstValue(PresentEntries(files), key).value != "" && IsStripped(FirstValue(PresentEntries(files), key).value)
  {
    if files != [] {
      var init := files[..|files| - 1];
      PresentEntriesClean(init, key);
      FirstValueAppend(PresentEntries(init), PresentEntries(files) [|PresentEntries(init)|..], key);
      assert PresentEntries(files) == PresentEntries(init) + PresentEntries(files)[|PresentEntries(init)|..];
      match files[|files| - 1]
      case Some(lines) =>
        FirstValueClean(lines, key);
      case None =>
    }
  }

  /** Every variable loaded from files is non-empty and stripped. */
  lemma LoadedClean(result: Env, env: Env, files: seq<Option<seq<string>>>)
    requires LoadedFrom(result, env, PresentEntries(files))
    ensures forall k :: k in result && k !in env ==> result[k] != "" && IsStripped(result[k])
  {
    forall k | k in result && k !in env
      ensures result[k] != "" && IsStripped(result[k])
    {
      PresentEntriesClean(files, k);
    }
  }

  /** `load_env_if_present()`: each candidate that exists is read in turn;
      nothing already in the environment is overwritten, for a new variable
      the first definition across both files wins, and every value added is
      non-empty and stripped. */
  method LoadEnvIfPresent(env: Env, parentFile: Option<seq<string>>, scriptFile: Option<seq<string>>)
    returns (result: Env)
    ensures LoadedFrom(result, env, PresentEntries([parentFile, scriptFile]))
    ensures forall k :: k in result && k !in env ==> result[k] != "" && IsStripped(result[k])
  {
    var candidates := [parentFile, scriptFile];
    result := env;
    var n := 0;
    while n < |candidates|
      invariant 0 <= n <= |candidates|
      invariant LoadedFrom(result, env, PresentEntries(candidates[..n]))
    {
      PresentEntriesSnoc(candidates, n);
      match candidates[n] {
        case Some(lines) =>
          var before := result;
          result := LoadLines(result, lines);
          LoadedFromTwice(env, before, result, PresentEntries(candidates[..n]), Entries(lines));
          assert PresentEntries(candidates[..n + 1]) == PresentEntries(candidates[..n]) + Entries(lines);
        case None =>
          assert PresentEntries(candidates[..n + 1]) == PresentEntries(candidates[..n]) + [];
          assert PresentEntries(candidates[..n]) + [] == PresentEntries(candidates[..n]);
      }
      n := n + 1;
    }
    assert candidates[..n] == candidates;
    LoadedClean(result, env, candidates);
  }
}
