/**
 * Step selection of the pipeline driver (main.py): the canonical stage list
 * `_steps` and the expression that turns the `main.steps` directive into the
 * list of active step names.
 *
 * The directive is either the literal "all" or a string that is cut at every
 * comma exactly as Python's `str.split(",")` cuts it: no token is trimmed,
 * empty tokens are kept, and the result always has at least one token.
 */
module StepSelection {

  /** The canonical stage list `_steps`, in its declared order. */
  const Canonical: seq<string> :=
    ["download", "basic_cleaning", "data_check", "data_split", "train_random_forest"]

  /** The directive value that selects every canonical stage. */
  const AllDirective: string := "all"

  /** The character the directive is split on. */
  const Comma: char := ','

  /** Number of occurrences of `c` in `s`. */
  function Occurrences(s: string, c: char): nat
  {
    if |s| == 0 then 0
    else (if s[0] == c then 1 else 0) + Occurrences(s[1..], c)
  }

  /**
   * `s.split(sep)` for a one-character separator: the maximal pieces of `s`
   * between separators, from left to right, one more piece than there are
   * separators, none of them holding the separator.
   */
  function Split(s: string, sep: char): (parts: seq<string>)
    ensures |parts| == Occurrences(s, sep) + 1
    ensures forall p :: p in parts ==> sep !in p
    decreases |s|
  {
    if |s| == 0 then [""]
    else
      var rest := Split(s[1..], sep);
      if s[0] == sep then [""] + rest
      else [[s[0]] + rest[0]] + rest[1..]
  }

  /** `sep.join(parts)`: the pieces with one separator between neighbours. */
  function Join(parts: seq<string>, sep: char): string
    requires |parts| >= 1
  {
    if |parts| == 1 then parts[0]
    else parts[0] + [sep] + Join(parts[1..], sep)
  }

  /** Splitting loses nothing: joining the pieces back gives the input. */
  lemma {:induction false} JoinSplit(s: string, sep: char)
    ensures Join(Split(s, sep), sep) == s
    decreases |s|
  {
    if |s| > 0 {
      var rest := Split(s[1..], sep);
      JoinSplit(s[1..], sep);
      if s[0] == sep {
        assert ([""] + rest)[1..] == rest;
        assert s == [sep] + s[1..];
      } else if |rest| == 1 {
        assert s == [s[0]] + s[1..];
      } else {
        var tail := rest[1..];
        assert Join(rest, sep) == rest[0] + [sep] + Join(tail, sep);
        assert ([[s[0]] + rest[0]] + tail)[1..] == tail;
        assert s == [s[0]] + s[1..];
      }
    }
  }

  /** A string without the separator is a single piece. */
  lemma {:induction false} SplitWithoutSeparator(w: string, sep: char)
    requires sep !in w
    ensures Split(w, sep) == [w]
    decreases |w|
  {
    if |w| > 0 {
      SplitWithoutSeparator(w[1..], sep);
      assert w == [w[0]] + w[1..];
    }
  }

  /** A separator-free prefix followed by a separator is split off as the first piece. */
  lemma {:induction false} SplitAfterPrefix(w: string, sep: char, t: string)
    requires sep !in w
    ensures Split(w + [sep] + t, sep) == [w] + Split(t, sep)
    decreases |w|
  {
    var s := w + [sep] + t;
    if |w| == 0 {
      assert s[1..] == t;
    } else {
      assert s[1..] == w[1..] + [sep] + t;
      SplitAfterPrefix(w[1..], sep, t);
      assert w == [w[0]] + w[1..];
    }
  }

  /**
   * Splitting undoes joining: a non-empty list of separator-free pieces is
   * recovered from its join. With JoinSplit, Split is the inverse of Join.
   */
  lemma {:induction false} SplitJoin(parts: seq<string>, sep: char)
    requires |parts| >= 1
    requires forall p :: p in parts ==> sep !in p
    ensures Split(Join(parts, sep), sep) == parts
    decreases |parts|
  {
    if |parts| == 1 {
      SplitWithoutSeparator(parts[0], sep);
    } else {
      assert parts[0] in parts;
      assert forall p :: p in parts[1..] ==> p in parts;
      SplitJoin(parts[1..], sep);
      SplitAfterPrefix(parts[0], sep, Join(parts[1..], sep));
      assert parts == [parts[0]] + parts[1..];
    }
  }

  /**
   * The active step list of main.py: the canonical list for "all", otherwise
   * the raw comma split of the directive (tokens are neither trimmed nor
   * checked against the canonical names).
   */
  function ActiveSteps(directive: string): (active: seq<string>)
    ensures directive == AllDirective ==> active == Canonical
    ensures directive != AllDirective ==>
              && |active| >= 1
              && (forall t :: t in active ==> Comma !in t)
              && Join(active, Comma) == directive
  {
    if directive != AllDirective then
      JoinSplit(directive, Comma);
      Split(directive, Comma)
    else Canonical
  }

  /**
   * The active list of an explicit directive is determined: it is the one
   * comma-free token list whose comma join is the directive.
   */
  lemma ActiveStepsOfTokens(directive: string, tokens: seq<string>)
    requires directive != AllDirective
    requires |tokens| >= 1 && forall t :: t in tokens ==> Comma !in t
    requires Join(tokens, Comma) == directive
    ensures ActiveSteps(directive) == tokens
  {
    SplitJoin(tokens, Comma);
  }

  /** An explicit directive keeps its own token order: "data_check,download" lists data_check first. */
  lemma DirectiveOrderKept(directive: string)
    requires directive == "data_check,download"
    ensures ActiveSteps(directive) == ["data_check", "download"]
  {
    var tokens := ["data_check", "download"];
    assert Join(tokens, Comma) == "data_check" + [Comma] + "download";
    ActiveStepsOfTokens(directive, tokens);
  }

  /** A single step name is a directive of its own: "download" selects exactly ["download"]. */
  lemma SingleTokenKept(directive: string)
    requires directive == "download"
    ensures ActiveSteps(directive) == ["download"]
  {
    ActiveStepsOfTokens(directive, ["download"]);
  }

  /** Repeated and misspelt tokens are kept as they are: nothing is deduplicated or rejected. */
  lemma RepeatedTokenKept(directive: string)
    requires directive == "download,downlaod,download"
    ensures ActiveSteps(directive) == ["download", "downlaod", "download"]
  {
    var tokens := ["download", "downlaod", "download"];
    assert Join(tokens, Comma) == "download" + [Comma] + ("downlaod" + [Comma] + "download");
    ActiveStepsOfTokens(directive, tokens);
  }

  /** Tokens are not trimmed: " data_check" is a token of its own, not the step name "data_check". */
  lemma LeadingSpaceKept(directive: string)
    requires directive == " data_check"
    ensures ActiveSteps(directive) == [" data_check"]
    ensures "data_check" !in ActiveSteps(directive)
  {
    ActiveStepsOfTokens(directive, [" data_check"]);
  }

  /** A space after a comma stays in the next token: "download, data_check" does not select data_check. */
  lemma SpaceAfterCommaKept(directive: string)
    requires directive == "download, data_check"
    ensures ActiveSteps(directive) == ["download", " data_check"]
    ensures "data_check" !in ActiveSteps(directive)
  {
    var tokens := ["download", " data_check"];
    assert Join(tokens, Comma) == "download" + [Comma] + " data_check";
    ActiveStepsOfTokens(directive, tokens);
  }
}
