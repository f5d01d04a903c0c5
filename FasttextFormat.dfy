/** FastText's training-file format as both fasttext learners write it
    (learners/fasttext_learner.py and learners/fasttext.py hold identical
    `_parse` and `_write_file` code): one line per sample, made of a
    `__label__<label> ` token per intent followed by the text, and the lines
    joined by newlines. Also the label clean-up `predict` applies. */
module FasttextFormat {
  import opened Text

  datatype Intent = Intent(name: string)

  /** A sample of the request JSON: `{'text': ..., 'intents': [{'label': ...}]}`. */
  datatype Sample = Sample(text: string, intents: seq<Intent>)

  const LABEL_PREFIX: string := "__label__"

  /** A trained FastText model, opaque to the learners. */
  datatype FasttextModel = FasttextModel(handle: nat)

  /** The class name FastText learns for an intent: `'__label__' + label.lower().strip()`. */
  function LabelWord(name: string): string {
    LABEL_PREFIX + Strip(Lower(name))
  }

  /** The token one intent contributes to a line: its class name and a space. */
  function LabelToken(name: string): string {
    LabelWord(name) + " "
  }

  /** The tokens of the first `|intents|` intents, in order. */
  function LabelTokens(intents: seq<Intent>): string {
    if intents == [] then []
    else LabelTokens(intents[..|intents| - 1]) + LabelToken(intents[|intents| - 1].name)
  }

  /** The line a sample becomes. */
  function Line(s: Sample): string {
    LabelTokens(s.intents) + s.text
  }

  /** The lines of a sample list: one per sample, in sample order. */
  function Lines(samples: seq<Sample>): (r: seq<string>)
    ensures |r| == |samples|
    ensures forall i :: 0 <= i < |samples| ==> r[i] == Line(samples[i])
  {
    seq(|samples|, i requires 0 <= i < |samples| => Line(samples[i]))
  }

  /** `_parse`: a line per sample, in sample order. */
  method Parse(samples: seq<Sample>) returns (data: seq<string>)
    ensures data == Lines(samples)
  {
    data := [];
    for i := 0 to |samples|
      invariant |data| == i
      invariant forall j :: 0 <= j < i ==> data[j] == Line(samples[j])
    {
      var s := samples[i];
      var intents := "";
      for k := 0 to |s.intents|
        invariant intents == LabelTokens(s.intents[..k])
      {
        assert s.intents[..k + 1][..k] == s.intents[..k];
        intents := intents + LABEL_PREFIX + Strip(Lower(s.intents[k].name)) + " ";
      }
      assert s.intents[..|s.intents|] == s.intents;
      data := data + [intents + s.text];
    }
    assert data == Lines(samples);
  }

  /** A sample without intents is written as its bare text. */
  lemma LineWithoutIntents(s: Sample)
    requires s.intents == []
    ensures Line(s) == s.text
  {
    assert LabelTokens([]) == [];
  }

  /** A line ends with the sample's text and is longer than it by a label
      token per intent, each at least `"__label__ "` long. */
  lemma {:induction false} LabelTokensLength(intents: seq<Intent>)
    ensures |LabelTokens(intents)| >= 10 * |intents|
    decreases |intents|
  {
    if intents != [] {
      LabelTokensLength(intents[..|intents| - 1]);
    }
  }

  // ---------------------------------------------------------------------
  // Reading a line back: splitting on spaces gives one token per intent,
  // then the words of the text.

  /** The tokens split off the front of a line: `'__label__' + label`
      after lower-casing and stripping. */
  function LabelWords(intents: seq<Intent>): seq<string> {
    if intents == [] then []
    else LabelWords(intents[..|intents| - 1]) + [LabelWord(intents[|intents| - 1].name)]
  }

  /** No stripped label contains a space: each intent is one word. */
  predicate SingleWordLabels(intents: seq<Intent>) {
    forall i :: 0 <= i < |intents| ==> ' ' !in Strip(Lower(intents[i].name))
  }

  lemma {:induction false} SplitAfterWord(w: string, rest: string)
    requires ' ' !in w
    ensures Split(w + " " + rest, ' ') == [w] + Split(rest, ' ')
  {
    IndexOfAfterClean(w, ' ', rest);
    var s := w + [' '] + rest;
    assert s[..|w|] == w;
    assert s[|w| + 1..] == rest;
  }

  lemma {:induction false} LabelTokensFront(intents: seq<Intent>)
    requires intents != []
    ensures LabelTokens(intents) == LabelToken(intents[0].name) + LabelTokens(intents[1..])
    decreases |intents|
  {
    if |intents| > 1 {
      var init := intents[..|intents| - 1];
      LabelTokensFront(init);
      assert init[1..] == intents[1..][..|intents[1..]| - 1];
      assert init[0] == intents[0];
    } else {
      assert intents[1..] == [];
      assert intents[..0] == [];
    }
  }

  lemma {:induction false} LabelWordsFront(intents: seq<Intent>)
    requires intents != []
    ensures LabelWords(intents) == [LabelWord(intents[0].name)] + LabelWords(intents[1..])
    decreases |intents|
  {
    if |intents| > 1 {
      var init := intents[..|intents| - 1];
      LabelWordsFront(init);
      assert init[1..] == intents[1..][..|intents[1..]| - 1];
      assert init[0] == intents[0];
    } else {
      assert intents[1..] == [];
      assert intents[..0] == [];
    }
  }

  lemma ConcatAssoc<T>(a: seq<T>, b: seq<T>, c: seq<T>)
    ensures a + (b + c) == (a + b) + c
  {
  }

  lemma LabelWordNoSpace(name: string)
    requires ' ' !in Strip(Lower(name))
    ensures ' ' !in LabelWord(name)
  {
    assert ' ' !in LABEL_PREFIX;
  }

  lemma LineFront(s: Sample)
    requires s.intents != []
    ensures Line(s) == LabelWord(s.intents[0].name) + " " + Line(Sample(s.text, s.intents[1..]))
  {
    LabelTokensFront(s.intents);
  }

  /** Splitting a written line on spaces recovers the label tokens, in
      intent order, followed by the words of the text. */
  lemma {:induction false} LineSplit(s: Sample)
    requires SingleWordLabels(s.intents)
    ensures Split(Line(s), ' ') == LabelWords(s.intents) + Split(s.text, ' ')
    decreases |s.intents|
  {
    if s.intents == [] {
      LineWithoutIntents(s);
    } else {
      var rest := Sample(s.text, s.intents[1..]);
      assert SingleWordLabels(rest.intents) by {
        forall i | 0 <= i < |rest.intents| ensures ' ' !in Strip(Lower(rest.intents[i].name)) {
          assert rest.intents[i] == s.intents[i + 1];
        }
      }
      var w := LabelWord(s.intents[0].name);
      LabelWordNoSpace(s.intents[0].name);
      calc {
        Split(Line(s), ' ');
        { LineFront(s); }
        Split(w + " " + Line(rest), ' ');
        { SplitAfterWord(w, Line(rest)); }
        [w] + Split(Line(rest), ' ');
        { LineSplit(rest); }
        [w] + (LabelWords(rest.intents) + Split(s.text, ' '));
        { ConcatAssoc([w], LabelWords(rest.intents), Split(s.text, ' ')); }
        ([w] + LabelWords(rest.intents)) + Split(s.text, ' ');
        { LabelWordsFront(s.intents); }
        LabelWords(s.intents) + Split(s.text, ' ');
      }
    }
  }

  // ---------------------------------------------------------------------
  // `_write_file`

  /** The text `_write_file` puts in the file: `'\n'.join(lines)`. */
  function FileContent(lines: seq<string>): string {
    Join("\n", lines)
  }

  /** n lines without newlines give exactly n - 1 newlines and nothing after
      the last line; splitting the content on newlines gives the lines back. */
  lemma FileContentShape(lines: seq<string>)
    requires |lines| > 0
    requires forall i :: 0 <= i < |lines| ==> '\n' !in lines[i]
    ensures Count(FileContent(lines), '\n') == |lines| - 1
    ensures Split(FileContent(lines), '\n') == lines
    ensures lines[|lines| - 1] != [] ==> FileContent(lines)[|FileContent(lines)| - 1] != '\n'
  {
    JoinSeparatorCount('\n', lines);
    SplitJoin('\n', lines);
  }

  /** The temporary file opened for writing (`NamedTemporaryFile('w')`). */
  class TextFile {
    var content: string
    var closed: bool

    constructor ()
      ensures content == [] && !closed
    {
      content, closed := [], false;
    }

    method Write(data: string)
      requires !closed
      modifies this
      ensures content == old(content) + data && !closed
    {
      content := content + data;
    }

    method Close()
      modifies this
      ensures closed && content == old(content)
    {
      closed := true;
    }
  }

  /** `_write_file`: write the joined lines, then close the file. */
  method WriteFile(inputData: seq<string>, outputFile: TextFile)
    requires !outputFile.closed
    modifies outputFile
    ensures outputFile.content == old(outputFile.content) + FileContent(inputData)
    ensures outputFile.closed
  {
    var data := Join("\n", inputData);
    outputFile.Write(data);
    outputFile.Close();
  }

  // ---------------------------------------------------------------------
  // Predicted labels: `label.replace('__label__', '').upper()`

  function FormatLabel(reported: string): string {
    Upper(RemoveAll(reported, LABEL_PREFIX))
  }

  lemma {:induction false} TrimStartLower(s: string)
    ensures TrimStart(Lower(s)) == Lower(TrimStart(s))
    decreases |s|
  {
    if s != [] {
      assert Lower(s)[1..] == Lower(s[1..]);
      TrimStartLower(s[1..]);
    }
  }

  lemma {:induction false} TrimEndLower(s: string)
    ensures TrimEnd(Lower(s)) == Lower(TrimEnd(s))
    decreases |s|
  {
    if s != [] {
      assert Lower(s)[..|s| - 1] == Lower(s[..|s| - 1]);
      TrimEndLower(s[..|s| - 1]);
    }
  }

  /** Lower-casing and stripping commute: no letter is whitespace. */
  lemma StripLower(s: string)
    ensures Strip(Lower(s)) == Lower(Strip(s))
  {
    TrimStartLower(s);
    TrimEndLower(TrimStart(s));
  }

  /** FastText reads whitespace and NUL as word separators: a class name
      without them is one word of the training file. */
  predicate OneWord(s: string) {
    forall i :: 0 <= i < |s| ==> !IsSpace(s[i]) && s[i] != '\0'
  }

  /** `predict`'s cleaning undoes `LabelWord`: the class name written for
      intent `label` comes back as the stripped label, upper-cased, provided
      the label itself does not contain `__label__`. */
  lemma FormatLabelUndoesLabelWord(name: string)
    requires !Contains(Strip(Lower(name)), LABEL_PREFIX)
    ensures FormatLabel(LABEL_PREFIX + Strip(Lower(name))) == Upper(Strip(name))
  {
    var x := Strip(Lower(name));
    RemoveAllPrefix(LABEL_PREFIX, x);
    RemoveAllNoOccurrence(x, LABEL_PREFIX);
    StripLower(name);
    UpperOfLower(Strip(name));
  }
}
