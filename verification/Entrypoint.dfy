/**
  The container entrypoint's merge of decrypted variables into the environment: a `while read` loop over the
  lines of the decrypted text, in a shell whose own variables `key`, `value` and `secrets` live beside the
  environment it hands on.
 */
module Entrypoint {
  import opened Prelude
  import Text

  datatype Variable = Variable(value: string, exported: bool)

  type Variables = map<string, Variable>

  // ---------------------------------------------------------------- read

  /** POSIX field splitting with IFS set to `=`: each `=` ends a field, and an unended rest is a field too. */
  function ReadFields(line: string): seq<string> {
    var parts := Text.Split(line, '=');
    if parts[|parts| - 1] == "" then parts[..|parts| - 1] else parts
  }

  function FirstEquals(line: string): (k: nat)
    ensures k <= |line|
    ensures '=' !in line[..k]
    ensures k < |line| ==> line[k] == '='
  {
    if line == "" || line[0] == '=' then 0
    else
      var k := FirstEquals(line[1..]);
      assert line[..k + 1] == [line[0]] + line[1..][..k];
      k + 1
  }

  /** The text before the first `=`, or the whole line. */
  function KeyOf(line: string): string {
    line[..FirstEquals(line)]
  }

  /** The text after the first `=`. */
  function RestOf(line: string): string {
    if FirstEquals(line) < |line| then line[FirstEquals(line) + 1..] else ""
  }

  /** What `IFS='=' read -r key value` assigns: one field each, unless there are more than two fields. */
  function ReadLine(line: string): (string, string) {
    var fields := ReadFields(line);
    (if |fields| >= 1 then fields[0] else "",
     if |fields| <= 1 then "" else if |fields| == 2 then fields[1] else RestOf(line))
  }

  /** The rest of the line ends with its only `=`. */
  predicate LoneTrailingEquals(rest: string) {
    rest != "" && rest[|rest| - 1] == '=' && '=' !in rest[..|rest| - 1]
  }

  lemma CutAt(line: string, k: nat)
    requires k < |line|
    ensures line == line[..k] + [line[k]] + line[k + 1..]
  {
  }

  lemma SplitRest(line: string)
    requires FirstEquals(line) < |line|
    ensures Text.Split(line, '=') == [KeyOf(line)] + Text.Split(RestOf(line), '=')
  {
    hide Text.Split, FirstEquals;
    CutAt(line, FirstEquals(line));
    Text.SplitAppend(KeyOf(line), RestOf(line), '=');
    Text.SplitPlain(KeyOf(line), '=');
  }

  lemma {:induction false} SplitCount(s: string)
    ensures |Text.Split(s, '=')| == 1 <==> '=' !in s
    ensures '=' !in s ==> Text.Split(s, '=') == [s]
    ensures Text.Split(s, '=')[|Text.Split(s, '=')| - 1] == "" <==> s == "" || s[|s| - 1] == '='
    ensures |Text.Split(s, '=')| == 2 && s != "" && s[|s| - 1] == '=' ==> LoneTrailingEquals(s)
    ensures LoneTrailingEquals(s) ==> Text.Split(s, '=') == [s[..|s| - 1], ""]
    decreases |s|
  {
    hide Text.Split;
    if s == "" {
      Text.SplitNothing('=');
    } else {
      var init, last := s[..|s| - 1], s[|s| - 1];
      SplitCount(init);
      Text.SplitPush(init, last, '=');
      assert s == init + [last];
    }
  }

  /**
    `read` takes the text before the first `=` as key, and all the text after it as value, except that a value
    whose only `=` is its last character loses that character.
   */
  lemma ReadSplitsAtFirstEquals(line: string)
    ensures ReadLine(line).0 == KeyOf(line)
    ensures ReadLine(line).1 ==
            if LoneTrailingEquals(RestOf(line)) then RestOf(line)[..|RestOf(line)| - 1] else RestOf(line)
    ensures ReadLine(line).1 == RestOf(line) <==> !LoneTrailingEquals(RestOf(line))
  {
    hide Text.Split, FirstEquals;
    if FirstEquals(line) < |line| {
      SplitRest(line);
      SplitCount(RestOf(line));
    } else {
      assert line[..|line|] == line;
      SplitCount(line);
    }
  }

  /** Base64 that ends in a single padding character is cut: the split at the first `=` is not kept intact. */
  lemma SinglePaddingIsLost()
    ensures RestOf("TOKEN=YWI=") == "YWI=" && ReadLine("TOKEN=YWI=") == ("TOKEN", "YWI")
  {
    hide ReadLine, FirstEquals;
    var line := "TOKEN=YWI=";
    FirstEqualsAfter("TOKEN", "YWI=");
    assert line == "TOKEN" + ['='] + "YWI=";
    ReadSplitsAtFirstEquals(line);
    assert "YWI="[..3] == "YWI" && "YWI="[3] == '=';
  }

  lemma FirstEqualsAfter(key: string, rest: string)
    requires '=' !in key
    ensures FirstEquals(key + ['='] + rest) == |key|
    ensures KeyOf(key + ['='] + rest) == key && RestOf(key + ['='] + rest) == rest
  {
    hide FirstEquals;
    var line := key + ['='] + rest;
    var k := FirstEquals(line);
    assert line[|key|] == '=';
    assert forall j | 0 <= j < k :: line[j] == line[..k][j];
    assert forall j | 0 <= j < |key| :: line[j] == key[j];
    assert line[..|key|] == key && line[|key| + 1..] == rest;
  }

  // ---------------------------------------------------------------- names

  predicate NameChar(c: char) {
    'A' <= c <= 'Z' || 'a' <= c <= 'z' || '0' <= c <= '9' || c == '_'
  }

  /** The two `case` patterns: skipped silently, or skipped as invalid. */
  predicate ValidName(name: string) {
    && name != "" && name[0] != '#' && !("sops_" <= name)
    && (forall c | c in name :: NameChar(c))
    && !('0' <= name[0] <= '9')
  }

  /** The shell's own variables at the time of the loop. */
  const OWN: set<string> := {"key", "value", "secrets"}

  /** The value of the first line that offers `name`. */
  function FirstOffer(lines: seq<string>, name: string): Option<string>
    decreases |lines|
  {
    if lines == [] then None
    else
      var earlier := FirstOffer(lines[..|lines| - 1], name);
      var (key, value) := ReadLine(lines[|lines| - 1]);
      if earlier.Some? then earlier else if key == name && ValidName(name) then Some(value) else None
  }

  lemma {:induction false} FirstOfferIsFirst(lines: seq<string>, name: string)
    ensures FirstOffer(lines, name).None? <==>
            !ValidName(name) || forall k | 0 <= k < |lines| :: ReadLine(lines[k]).0 != name
    ensures FirstOffer(lines, name).Some? ==>
              exists k | 0 <= k < |lines| ::
                && ReadLine(lines[k]) == (name, FirstOffer(lines, name).value)
                && forall j | 0 <= j < k :: ReadLine(lines[j]).0 != name
    decreases |lines|
  {
    hide ReadLine, ValidName;
    if lines != [] {
      var init := lines[..|lines| - 1];
      FirstOfferIsFirst(init, name);
      if FirstOffer(init, name).Some? {
        var k :| 0 <= k < |init| && ReadLine(init[k]) == (name, FirstOffer(init, name).value)
                 && forall j | 0 <= j < k :: ReadLine(init[j]).0 != name;
        assert ReadLine(lines[k]) == (name, FirstOffer(lines, name).value);
        assert forall j | 0 <= j < k :: lines[j] == init[j];
      } else if FirstOffer(lines, name).Some? {
        assert ReadLine(lines[|lines| - 1]) == (name, FirstOffer(lines, name).value);
        assert forall j | 0 <= j < |init| :: lines[j] == init[j];
      }
    }
  }

  // ---------------------------------------------------------------- the merge

  function Lookup(vars: Variables, name: string): Option<Variable> {
    if name in vars then Some(vars[name]) else None
  }

  /** Assigning a shell variable keeps its export attribute. */
  function Assign(vars: Variables, name: string, value: string): Variables {
    vars[name := Variable(value, name in vars && vars[name].exported)]
  }

  /** The merge, name by name. */
  function Merged(vars: Variables, lines: seq<string>, name: string): Option<Variable> {
    if name == "secrets" then None
    else if name in OWN then Some(Variable("", name in vars && vars[name].exported))
    else if name in vars then Some(vars[name])
    else
      match FirstOffer(lines, name)
      case None => None
      case Some(value) => Some(Variable(value, true))
  }

  /** What one turn of the loop does to the shell's variables. */
  function TakeLine(vars: Variables, line: string): Variables {
    var (key, value) := ReadLine(line);
    var read := Assign(Assign(vars, "key", key), "value", value);
    if ValidName(key) && key !in read then read[key := Variable(value, true)] else read
  }

  /** Apart from the shell's own three, the variables are those of the merge so far. */
  ghost predicate MergedSoFar(before: Variables, vars: Variables, lines: seq<string>) {
    forall name: string | name !in OWN :: Lookup(vars, name) == Merged(before, lines, name)
  }

  /** The shell's own variables: `secrets` is there, and `key` and `value` keep their export attribute. */
  predicate OwnKept(before: Variables, vars: Variables) {
    && "secrets" in vars
    && (if "key" in vars then vars["key"].exported == ("key" in before && before["key"].exported)
        else "key" !in before)
    && (if "value" in vars then vars["value"].exported == ("value" in before && before["value"].exported)
        else "value" !in before)
  }

  lemma OwnNamesDiffer()
    ensures "key" != "value" && "key" != "secrets" && "value" != "secrets"
    ensures OWN == {"key", "value", "secrets"}
  {
    assert |"key"| == 3 && |"value"| == 5 && |"secrets"| == 7;
  }

  lemma BeginMerge(before: Variables, text: string)
    ensures MergedSoFar(before, Assign(before, "secrets", text), [])
    ensures OwnKept(before, Assign(before, "secrets", text))
  {
    hide ReadLine, ValidName;
    OwnNamesDiffer();
  }

  /** Reading a line touches only `key` and `value`, and the line's name if that is valid and not set. */
  lemma TakeLineLookup(vars: Variables, line: string, name: string)
    requires name !in OWN
    ensures Lookup(TakeLine(vars, line), name) ==
            if name == ReadLine(line).0 && ValidName(name) && name !in vars
            then Some(Variable(ReadLine(line).1, true)) else Lookup(vars, name)
  {
    hide ReadLine, ValidName;
  }

  lemma MergeLine(before: Variables, vars: Variables, lines: seq<string>, k: nat)
    requires k < |lines| && MergedSoFar(before, vars, lines[..k])
    ensures MergedSoFar(before, TakeLine(vars, lines[k]), lines[..k + 1])
  {
    hide ReadLine, ValidName, TakeLine;
    var part := lines[..k + 1];
    assert part[..|part| - 1] == lines[..k] && part[|part| - 1] == lines[k];
    forall name: string | name !in OWN
      ensures Lookup(TakeLine(vars, lines[k]), name) == Merged(before, part, name) {
      assert Lookup(vars, name) == Merged(before, lines[..k], name);
      TakeLineLookup(vars, lines[k], name);
    }
  }

  lemma OwnLine(before: Variables, vars: Variables, line: string)
    requires OwnKept(before, vars)
    ensures OwnKept(before, TakeLine(vars, line))
  {
    hide ReadLine, ValidName;
    OwnNamesDiffer();
  }

  /** The read that meets the end empties `key` and `value`; then the text is forgotten. */
  lemma EndMerge(before: Variables, vars: Variables, lines: seq<string>, name: string)
    requires MergedSoFar(before, vars, lines) && OwnKept(before, vars)
    ensures Lookup(Assign(Assign(vars, "key", ""), "value", "") - {"secrets"}, name) == Merged(before, lines, name)
  {
    hide ReadLine, ValidName, FirstOffer;
    OwnNamesDiffer();
    assert name !in OWN ==> Lookup(vars, name) == Merged(before, lines, name);
  }

  class Shell {
    var vars: Variables

    constructor (environment: Variables)
      ensures vars == environment
    {
      vars := environment;
    }

    /** Lines 37 to 57: hold the decrypted text, loop over its lines, forget the text. */
    method MergeSecrets(text: string)
      modifies this
      ensures forall name: string :: Lookup(vars, name) == Merged(old(vars), Text.Split(text, '\n'), name)
    {
      hide ReadLine, ValidName, MergedSoFar, OwnKept, Merged, Lookup, OWN;
      ghost var before := vars;
      vars := Assign(vars, "secrets", text);
      BeginMerge(before, text);
      var lines := Text.Split(text, '\n');
      var k := 0;
      while k < |lines|
        invariant k <= |lines|
        invariant MergedSoFar(before, vars, lines[..k]) && OwnKept(before, vars)
      {
        MergeLine(before, vars, lines, k);
        OwnLine(before, vars, lines[k]);
        var (key, value) := ReadLine(lines[k]);
        vars := Assign(Assign(vars, "key", key), "value", value);
        if ValidName(key) && key !in vars {
          vars := vars[key := Variable(value, true)];
        }
        k := k + 1;
      }
      assert lines[..k] == lines;
      forall name: string
        ensures Lookup(Assign(Assign(vars, "key", ""), "value", "") - {"secrets"}, name) == Merged(before, lines, name)
      {
        EndMerge(before, vars, lines, name);
      }
      vars := Assign(Assign(vars, "key", ""), "value", "");  // the read that meets the end
      vars := vars - {"secrets"};
    }
  }

  /** The environment handed to the application. */
  function Environment(v: Option<Variable>): Option<string> {
    if v.Some? && v.value.exported then Some(v.value.value) else None
  }

  /** Running the merge again on its own result changes nothing. */
  lemma MergeIdempotent(vars: Variables, later: Variables, lines: seq<string>)
    requires forall name: string :: Lookup(later, name) == Merged(vars, lines, name)
    ensures forall name: string :: Merged(later, lines, name) == Lookup(later, name)
  {
    forall name: string ensures Merged(later, lines, name) == Lookup(later, name) {
      assert Lookup(later, name) == Merged(vars, lines, name);
    }
  }

  /**
    A variable that the container environment already sets keeps its value exactly when it is not one of the
    shell's own three, or is `key` or `value` and was empty.
   */
  lemma ContainerValueWinsIff(vars: Variables, lines: seq<string>, name: string)
    requires name in vars && vars[name].exported
    ensures Environment(Merged(vars, lines, name)) == Some(vars[name].value) <==>
            name !in OWN || (name != "secrets" && vars[name].value == "")
  {
  }

  /** A container variable called `key` is emptied, whatever the secrets are. */
  lemma ContainerKeyIsLost(lines: seq<string>)
    ensures Environment(Merged(map["key" := Variable("k1", true)], lines, "key")) == Some("")
  {
    assert "key" != "secrets" by { assert |"key"| != |"secrets"|; }
  }

  /** A letter or underscore, then letters, digits and underscores, not in the tool's own `sops_` namespace. */
  predicate ShellName(name: string) {
    && name != "" && !(|name| >= 5 && name[..5] == "sops_")
    && ('A' <= name[0] <= 'Z' || 'a' <= name[0] <= 'z' || name[0] == '_')
    && (forall c | c in name[1..] :: 'A' <= c <= 'Z' || 'a' <= c <= 'z' || c == '_' || '0' <= c <= '9')
  }

  lemma ValidNameIff(name: string)
    ensures ValidName(name) <==> ShellName(name)
  {
    if name != "" {
      assert name == [name[0]] + name[1..];
    }
    if ValidName(name) {
      assert NameChar(name[0]);
      forall c | c in name[1..] ensures NameChar(c) {
        assert c in name;
      }
    }
  }

  /** A secret reaches the application exactly when it is the first valid offer of a name the shell lacks. */
  lemma SecretExportedIff(vars: Variables, lines: seq<string>, name: string, value: string)
    requires name !in vars
    ensures Environment(Merged(vars, lines, name)) == Some(value) <==>
            && name !in {"key", "value", "secrets"} && ShellName(name)
            && exists k | 0 <= k < |lines| ::
                 ReadLine(lines[k]) == (name, value) && forall j | 0 <= j < k :: ReadLine(lines[j]).0 != name
  {
    hide ReadLine, ValidName, ShellName;
    FirstOfferIsFirst(lines, name);
    ValidNameIff(name);
    if ValidName(name) && exists k | 0 <= k < |lines| ::
         ReadLine(lines[k]) == (name, value) && forall j | 0 <= j < k :: ReadLine(lines[j]).0 != name {
      var k :| 0 <= k < |lines| && ReadLine(lines[k]) == (name, value)
               && forall j | 0 <= j < k :: ReadLine(lines[j]).0 != name;
      var i :| 0 <= i < |lines| && ReadLine(lines[i]) == (name, FirstOffer(lines, name).value)
               && forall j | 0 <= j < i :: ReadLine(lines[j]).0 != name;
      assert i == k;
    }
  }
}
