/** The configuration overlay of kdev's `main` (kdev.py:1002-1020): after argparse,
    every `*.kdev` file in the working directory is read line by line, and each
    `key = value` line fills an argument that is missing or `None`. */
module Config {
  import opened Wrappers
  import opened Text

  /** `\w`, restricted to ASCII (see README, "Left out"). */
  predicate IsWordChar(c: char)
  {
    ('a' <= c <= 'z') || ('A' <= c <= 'Z') || ('0' <= c <= '9') || c == '_'
  }

  /** The class `[\w/.-]` of a configuration value. */
  predicate IsValueChar(c: char)
  {
    IsWordChar(c) || c == '/' || c == '.' || c == '-'
  }

  /** The end of the longest run, starting at `from`, of characters satisfying `p`. */
  function Span(s: string, from: nat, p: char -> bool): (n: nat)
    requires from <= |s|
    ensures from <= n <= |s|
    ensures forall x :: from <= x < n ==> p(s[x])
    ensures n == |s| || !p(s[n])
    decreases |s| - from
  {
    if from < |s| && p(s[from]) then Span(s, from + 1, p) else from
  }

  lemma {:induction false} SpanUnique(s: string, from: nat, p: char -> bool, n: nat)
    requires from <= n <= |s|
    requires forall x :: from <= x < n ==> p(s[x])
    requires n == |s| || !p(s[n])
    ensures Span(s, from, p) == n
    decreases n - from
  {
    if from < n {
      SpanUnique(s, from + 1, p, n);
    }
  }

  /** What `re.match(r'(\w+)\s*=\s*([\w/.-]+)', line)` accepts, spelled out with
      positions: the key is `line[..k]`, spaces up to the `=` at `i`, spaces up to
      `j`, and the value `line[j..e]`, which the greedy `+` extends as far as it can. */
  ghost predicate AssignmentAt(line: string, k: nat, i: nat, j: nat, e: nat)
  {
    && 0 < k <= i < j < e <= |line|
    && (forall x :: 0 <= x < k ==> IsWordChar(line[x]))
    && (forall x :: k <= x < i ==> IsSpace(line[x]))
    && line[i] == '='
    && (forall x :: i < x < j ==> IsSpace(line[x]))
    && (forall x :: j <= x < e ==> IsValueChar(line[x]))
    && (e == |line| || !IsValueChar(line[e]))
  }

  /** The regular-expression match at the start of a stripped line: `Some((key, value))`
      for the two groups, `None` when there is no match. */
  function MatchAssignment(line: string): (r: Option<(string, string)>)
  {
    var k := Span(line, 0, IsWordChar);
    var i := Span(line, k, IsSpace);
    if k == 0 || i == |line| || line[i] != '=' then None
    else
      var j := Span(line, i + 1, IsSpace);
      var e := Span(line, j, IsValueChar);
      if e == j then None else Some((line[..k], line[j..e]))
  }

  lemma MatchAssignmentSound(line: string)
    requires MatchAssignment(line).Some?
    ensures exists k: nat, i: nat, j: nat, e: nat :: AssignmentAt(line, k, i, j, e)
                                 && MatchAssignment(line).value == (line[..k], line[j..e])
  {
    var k := Span(line, 0, IsWordChar);
    var i := Span(line, k, IsSpace);
    var j := Span(line, i + 1, IsSpace);
    var e := Span(line, j, IsValueChar);
    assert AssignmentAt(line, k, i, j, e);
  }

  lemma MatchAssignmentComplete(line: string, k: nat, i: nat, j: nat, e: nat)
    requires AssignmentAt(line, k, i, j, e)
    ensures MatchAssignment(line) == Some((line[..k], line[j..e]))
  {
    SpanUnique(line, 0, IsWordChar, k);
    SpanUnique(line, k, IsSpace, i);
    SpanUnique(line, i + 1, IsSpace, j);
    SpanUnique(line, j, IsValueChar, e);
    MatchOfSpans(line, k, i, j, e);
  }

  lemma MatchOfSpans(line: string, k: nat, i: nat, j: nat, e: nat)
    requires 0 < k <= i < j < e <= |line| && line[i] == '='
    requires Span(line, 0, IsWordChar) == k && Span(line, k, IsSpace) == i
    requires Span(line, i + 1, IsSpace) == j && Span(line, j, IsValueChar) == e
    ensures MatchAssignment(line) == Some((line[..k], line[j..e]))
  {
  }

  /** One line of a configuration file: stripped, skipped when blank or a `#`
      comment, otherwise matched against the assignment pattern. */
  function ParseLine(raw: string): (r: Option<(string, string)>)
    ensures r.Some? ==> r.value.0 != [] && r.value.1 != [] && r.value.0 <= Strip(raw)
  {
    var line := Strip(raw);
    if line == [] || line[0] == '#' then None else MatchAssignment(line)
  }

  /** The blank-line and comment guards never change the outcome: neither kind of
      line can start with a word character, which the pattern needs. */
  lemma CommentGuardRedundant(raw: string)
    ensures ParseLine(raw) == MatchAssignment(Strip(raw))
  {
    var line := Strip(raw);
    if line != [] && line[0] == '#' {
      assert Span(line, 0, IsWordChar) == 0;
    }
  }

  /** The pattern matches with groups `key` and `value` exactly when the line
      decomposes as `AssignmentAt` describes. */
  lemma MatchAssignmentMeaning(line: string, key: string, value: string)
    ensures MatchAssignment(line) == Some((key, value)) <==>
            exists k: nat, i: nat, j: nat, e: nat :: AssignmentAt(line, k, i, j, e)
                                 && key == line[..k] && value == line[j..e]
  {
    if MatchAssignment(line) == Some((key, value)) {
      MatchAssignmentSound(line);
    }
    if exists k: nat, i: nat, j: nat, e: nat :: AssignmentAt(line, k, i, j, e) && key == line[..k] && value == line[j..e] {
      var k: nat, i: nat, j: nat, e: nat :| AssignmentAt(line, k, i, j, e) && key == line[..k] && value == line[j..e];
      MatchAssignmentComplete(line, k, i, j, e);
    }
  }

  /** A line yields a pair exactly when its stripped text starts with an assignment,
      and the pair is that assignment's key and value; blank lines and comments
      yield nothing. */
  lemma ParseLineMeaning(raw: string, key: string, value: string)
    ensures ParseLine(raw) == Some((key, value)) <==>
            exists k: nat, i: nat, j: nat, e: nat :: AssignmentAt(Strip(raw), k, i, j, e)
                                 && key == Strip(raw)[..k] && value == Strip(raw)[j..e]
    ensures Strip(raw) == [] || Strip(raw)[0] == '#' ==> ParseLine(raw) == None
  {
    CommentGuardRedundant(raw);
    MatchAssignmentMeaning(Strip(raw), key, value);
  }

  /** The two `setattr` guards for one pair: fill the key when it is missing or `None`. */
  function Fill(attrs: map<string, Option<string>>, key: string, value: string): map<string, Option<string>>
  {
    if key !in attrs || attrs[key].None? then attrs[key := Some(value)] else attrs
  }

  /** Applying the pairs in file and line order. */
  function Overlay(attrs: map<string, Option<string>>, pairs: seq<(string, string)>): map<string, Option<string>>
    decreases |pairs|
  {
    if pairs == [] then attrs
    else
      var last := pairs[|pairs| - 1];
      Fill(Overlay(attrs, pairs[..|pairs| - 1]), last.0, last.1)
  }

  lemma OverlaySnoc(attrs: map<string, Option<string>>, pairs: seq<(string, string)>, p: (string, string))
    ensures Overlay(attrs, pairs + [p]) == Fill(Overlay(attrs, pairs), p.0, p.1)
  {
    assert (pairs + [p])[..|pairs|] == pairs;
  }

  datatype ConfigFile = ConfigFile(name: string, lines: seq<string>)

  /** The pairs one file contributes, in line order. */
  function LinePairs(lines: seq<string>): (r: seq<(string, string)>)
    ensures |r| <= |lines|
    ensures forall p :: p in r ==> p.0 != [] && p.1 != []
  {
    if lines == [] then []
    else
      var parsed := ParseLine(lines[|lines| - 1]);
      LinePairs(lines[..|lines| - 1]) + (if parsed.Some? then [parsed.value] else [])
  }

  lemma LinePairsSnoc(lines: seq<string>, l: nat)
    requires l < |lines|
    ensures var parsed := ParseLine(lines[l]);
            LinePairs(lines[..l + 1]) == LinePairs(lines[..l]) + (if parsed.Some? then [parsed.value] else [])
  {
    assert lines[..l + 1][..l] == lines[..l];
  }

  /** The pairs of all `*.kdev` files of a directory listing, in listing order. */
  function ConfigPairs(files: seq<ConfigFile>): (r: seq<(string, string)>)
    ensures forall p :: p in r ==> p.0 != [] && p.1 != []
    ensures (forall i :: 0 <= i < |files| ==> !EndsWith(files[i].name, ".kdev")) ==> r == []
  {
    if files == [] then []
    else
      var last := files[|files| - 1];
      ConfigPairs(files[..|files| - 1]) + (if EndsWith(last.name, ".kdev") then LinePairs(last.lines) else [])
  }

  lemma {:induction false} LinePairsOrigin(lines: seq<string>, p: (string, string))
    requires p in LinePairs(lines)
    ensures exists l :: l in lines && ParseLine(l) == Some(p)
  {
    var parsed := ParseLine(lines[|lines| - 1]);
    if p in LinePairs(lines[..|lines| - 1]) {
      LinePairsOrigin(lines[..|lines| - 1], p);
      var l :| l in lines[..|lines| - 1] && ParseLine(l) == Some(p);
      assert l in lines;
    } else {
      assert ParseLine(lines[|lines| - 1]) == Some(p);
    }
  }

  /** Every pair the overlay applies comes from a line of a file whose name ends in
      `.kdev`: other files of the directory contribute nothing. */
  lemma {:induction false} ConfigPairsOrigin(files: seq<ConfigFile>, p: (string, string))
    requires p in ConfigPairs(files)
    ensures exists f, l :: f in files && EndsWith(f.name, ".kdev") && l in f.lines && ParseLine(l) == Some(p)
  {
    var last := files[|files| - 1];
    if p in ConfigPairs(files[..|files| - 1]) {
      ConfigPairsOrigin(files[..|files| - 1], p);
      var f, l :| f in files[..|files| - 1] && EndsWith(f.name, ".kdev") && l in f.lines && ParseLine(l) == Some(p);
      assert f in files;
    } else {
      assert EndsWith(last.name, ".kdev") && p in LinePairs(last.lines);
      LinePairsOrigin(last.lines, p);
      assert last in files;
    }
  }

  /** Command-line precedence: a value that is set (not `None`) is never overwritten. */
  lemma {:induction false} OverlayKeepsSetValues(attrs: map<string, Option<string>>, pairs: seq<(string, string)>, key: string)
    requires key in attrs && attrs[key].Some?
    ensures key in Overlay(attrs, pairs) && Overlay(attrs, pairs)[key] == attrs[key]
  {
    if pairs != [] {
      OverlayKeepsSetValues(attrs, pairs[..|pairs| - 1], key);
    }
  }

  /** A key no pair names keeps its state: still missing, or still the same value. */
  lemma {:induction false} OverlayIgnoresUnmentioned(attrs: map<string, Option<string>>, pairs: seq<(string, string)>, key: string)
    requires forall x :: 0 <= x < |pairs| ==> pairs[x].0 != key
    ensures key in Overlay(attrs, pairs) <==> key in attrs
    ensures key in attrs ==> Overlay(attrs, pairs)[key] == attrs[key]
  {
    if pairs != [] {
      OverlayIgnoresUnmentioned(attrs, pairs[..|pairs| - 1], key);
    }
  }

  /** For a missing or `None` argument, the first pair naming it wins over later ones. */
  lemma {:induction false} OverlayFirstWins(attrs: map<string, Option<string>>, pairs: seq<(string, string)>, key: string, k: nat)
    requires Get(attrs, key).None?
    requires k < |pairs| && pairs[k].0 == key
    requires forall x :: 0 <= x < k ==> pairs[x].0 != key
    ensures key in Overlay(attrs, pairs) && Overlay(attrs, pairs)[key] == Some(pairs[k].1)
  {
    var front := pairs[..|pairs| - 1];
    if k < |pairs| - 1 {
      OverlayFirstWins(attrs, front, key, k);
    } else {
      OverlayIgnoresUnmentioned(attrs, front, key);
    }
  }

  /** The overlay adds exactly the keys the pairs name and never stores `None`. */
  lemma {:induction false} OverlayKeys(attrs: map<string, Option<string>>, pairs: seq<(string, string)>)
    ensures Overlay(attrs, pairs).Keys == attrs.Keys + set x | 0 <= x < |pairs| :: pairs[x].0
    ensures forall key :: key in Overlay(attrs, pairs) && key !in attrs ==> Overlay(attrs, pairs)[key].Some?
  {
    if pairs != [] {
      var front := pairs[..|pairs| - 1];
      OverlayKeys(attrs, front);
      var named := set x | 0 <= x < |pairs| :: pairs[x].0;
      var frontNamed := set x | 0 <= x < |front| :: front[x].0;
      assert named == frontNamed + {pairs[|pairs| - 1].0} by {
        forall key | key in named ensures key in frontNamed + {pairs[|pairs| - 1].0} {
          var x :| 0 <= x < |pairs| && pairs[x].0 == key;
          if x < |front| { assert front[x].0 == key; }
        }
        forall key | key in frontNamed ensures key in named {
          var x :| 0 <= x < |front| && front[x].0 == key;
          assert pairs[x].0 == key;
        }
      }
    }
  }

  lemma {:induction false} OverlayAppend(attrs: map<string, Option<string>>, front: seq<(string, string)>, back: seq<(string, string)>)
    ensures Overlay(attrs, front + back) == Overlay(Overlay(attrs, front), back)
    decreases |back|
  {
    if back != [] {
      var both := front + back;
      assert both[..|both| - 1] == front + back[..|back| - 1];
      OverlayAppend(attrs, front, back[..|back| - 1]);
    } else {
      assert front + back == front;
    }
  }

  /** kdev's argument namespace: attribute name to value, `None` included. */
  class Namespace {
    var attrs: map<string, Option<string>>

    constructor (attrs: map<string, Option<string>>)
      ensures this.attrs == attrs
    {
      this.attrs := attrs;
    }

    /** `setattr(args, key, value)` */
    method Set(key: string, value: string)
      modifies this
      ensures attrs == old(attrs)[key := Some(value)]
    {
      attrs := attrs[key := Some(value)];
    }

    /** One matched line: set the key if the namespace lacks it, then set it again if it is `None`. */
    method Merge(key: string, value: string)
      modifies this
      ensures attrs == Fill(old(attrs), key, value)
    {
      if key !in attrs {
        Set(key, value);
      }
      if attrs[key].None? {
        Set(key, value);
      }
    }

    /** The inner loop of the overlay: the lines of one `*.kdev` file. */
    method LoadLines(lines: seq<string>)
      modifies this
      ensures attrs == Overlay(old(attrs), LinePairs(lines))
    {
      ghost var applied: seq<(string, string)> := [];
      for l := 0 to |lines|
        invariant applied == LinePairs(lines[..l])
        invariant attrs == Overlay(old(attrs), applied)
      {
        LinePairsSnoc(lines, l);
        var line := Strip(lines[l]);
        if line == [] || line[0] == '#' {
          assert applied + [] == applied;
          continue;
        }
        var m := MatchAssignment(line);
        if m.Some? {
          Merge(m.value.0, m.value.1);
          OverlaySnoc(old(attrs), applied, m.value);
          applied := applied + [m.value];
        } else {
          assert applied + [] == applied;
        }
      }
      assert lines[..|lines|] == lines;
    }

    /** The overlay loop of `main` over the directory listing `files`. */
    method LoadConfigFiles(files: seq<ConfigFile>)
      modifies this
      ensures attrs == Overlay(old(attrs), ConfigPairs(files))
    {
      ghost var applied: seq<(string, string)> := [];
      for f := 0 to |files|
        invariant applied == ConfigPairs(files[..f])
        invariant attrs == Overlay(old(attrs), applied)
      {
        var file := files[f];
        assert files[..f + 1][..f] == files[..f];
        if EndsWith(file.name, ".kdev") {
          LoadLines(file.lines);
          OverlayAppend(old(attrs), applied, LinePairs(file.lines));
          applied := applied + LinePairs(file.lines);
        }
      }
      assert files[..|files|] == files;
    }
  }
}
