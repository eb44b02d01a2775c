/** The processed-title store: a UTF-8 text file that `save_processed_titles`
    rewrites with every title, sorted, one per line, and that
    `load_processed_titles` reads back as the set of its stripped lines.
    The file is modelled by its text; a missing file is `None`. */
module Store {
  import opened Options
  import opened Text
  import opened Ordering

  /** Reading in text mode with universal newlines: "\r\n" and a lone "\r"
      both become "\n". No carriage return survives. */
  function Universal(s: string): (r: string)
    ensures '\r' !in r
    decreases |s|
  {
    if s == [] then []
    else if s[0] == '\r' then "\n" + Universal(if |s| >= 2 && s[1] == '\n' then s[2..] else s[1..])
    else [s[0]] + Universal(s[1..])
  }

  /** Text without carriage returns reads back unchanged. */
  lemma {:induction false} UniversalKeeps(s: string)
    requires '\r' !in s
    ensures Universal(s) == s
  {
    if s != [] {
      UniversalKeeps(s[1..]);
      assert s == [s[0]] + s[1..];
    }
  }

  /** The length of the first line of `s`, its line feed included. */
  function LineLength(s: string): (n: nat)
    requires s != []
    ensures 0 < n <= |s|
    ensures forall i :: 0 <= i < n - 1 ==> s[i] != '\n'
    ensures n == |s| || s[n - 1] == '\n'
  {
    if s[0] == '\n' || |s| == 1 then 1 else 1 + LineLength(s[1..])
  }

  /** `for line in f`: the lines of the text, each with its line feed
      (the last one without, when the text does not end in one). */
  function Lines(s: string): seq<string>
    decreases |s|
  {
    if s == [] then [] else var n := LineLength(s); [s[..n]] + Lines(s[n..])
  }

  function Flatten(lines: seq<string>): string {
    if lines == [] then "" else lines[0] + Flatten(lines[1..])
  }

  /** Splitting into lines loses and adds nothing. */
  lemma {:induction false} LinesFlatten(s: string)
    ensures Flatten(Lines(s)) == s
    decreases |s|
  {
    if s != [] {
      var n := LineLength(s);
      LinesFlatten(s[n..]);
      var lines := Lines(s);
      assert lines == [s[..n]] + Lines(s[n..]);
      assert lines[1..] == Lines(s[n..]);
      assert s == s[..n] + s[n..];
    }
  }

  /** Every line is non-empty and every line but the last ends at its only
      line feed. */
  lemma {:induction false} LinesShape(s: string, k: nat)
    requires k < |Lines(s)|
    ensures Lines(s)[k] != []
    ensures forall i :: 0 <= i < |Lines(s)[k]| - 1 ==> Lines(s)[k][i] != '\n'
    ensures k < |Lines(s)| - 1 ==> Lines(s)[k][|Lines(s)[k]| - 1] == '\n'
    decreases |s|
  {
    var n := LineLength(s);
    var lines := Lines(s);
    assert lines == [s[..n]] + Lines(s[n..]);
    if k > 0 {
      LinesShape(s[n..], k - 1);
      assert lines[k] == Lines(s[n..])[k - 1];
    } else if 0 < |lines| - 1 {
      assert n < |s|;
    }
  }

  /** What `save_processed_titles` writes: each title followed by "\n". */
  function Serialize(titles: seq<string>): string {
    if titles == [] then "" else titles[0] + "\n" + Serialize(titles[1..])
  }

  lemma {:induction false} SerializeSnoc(titles: seq<string>, t: string)
    ensures Serialize(titles + [t]) == Serialize(titles) + t + "\n"
  {
    if titles != [] {
      assert (titles + [t])[1..] == titles[1..] + [t];
      SerializeSnoc(titles[1..], t);
    } else {
      assert Serialize([t]) == t + "\n" + Serialize([]);
    }
  }

  lemma {:induction false} SerializeNoReturn(titles: seq<string>)
    requires forall i :: 0 <= i < |titles| ==> '\r' !in titles[i]
    ensures '\r' !in Serialize(titles)
  {
    if titles != [] {
      SerializeNoReturn(titles[1..]);
    }
  }

  lemma {:induction false} LineLengthOfLine(t: string, rest: string)
    requires '\n' !in t
    ensures LineLength(t + "\n" + rest) == |t| + 1
  {
    if t != [] {
      assert (t + "\n" + rest)[1..] == t[1..] + "\n" + rest;
      LineLengthOfLine(t[1..], rest);
    }
  }

  /** Reading back what was written yields the titles, each with its line feed. */
  lemma {:induction false} LinesOfSerialize(titles: seq<string>)
    requires forall i :: 0 <= i < |titles| ==> '\n' !in titles[i]
    ensures |Lines(Serialize(titles))| == |titles|
    ensures forall i :: 0 <= i < |titles| ==> Lines(Serialize(titles))[i] == titles[i] + "\n"
  {
    if titles != [] {
      var s := Serialize(titles);
      var rest := Serialize(titles[1..]);
      LineLengthOfLine(titles[0], rest);
      assert s[..|titles[0]| + 1] == titles[0] + "\n";
      assert s[|titles[0]| + 1..] == rest;
      LinesOfSerialize(titles[1..]);
      assert Lines(s) == [titles[0] + "\n"] + Lines(rest);
    }
  }

  /** A title the store can hold: one line, without surrounding white space. */
  predicate Storable(t: string) {
    '\n' !in t && '\r' !in t && NoEdgeSpace(t)
  }

  /** The stripped lines of a file, as a set. */
  function StrippedLines(lines: seq<string>): set<string> {
    set line | line in lines :: Strip(line)
  }

  /** `load_processed_titles`: the set of stripped lines, or the empty set
      when the file does not exist. */
  function Load(file: Option<string>): (titles: set<string>)
    ensures file.None? ==> titles == {}
    ensures file.Some? ==> forall line :: line in Lines(Universal(file.value)) ==> Strip(line) in titles
  {
    match file
    case None => {}
    case Some(text) => StrippedLines(Lines(Universal(text)))
  }

  /** The write loop of `save_processed_titles`: each title, then "\n". */
  method WriteLines(order: seq<string>) returns (file: string)
    ensures file == Serialize(order)
  {
    file := "";
    for i := 0 to |order|
      invariant file == Serialize(order[..i])
    {
      SerializeSnoc(order[..i], order[i]);
      assert order[..i + 1] == order[..i] + [order[i]];
      file := file + order[i] + "\n";
    }
    assert order[..|order|] == order;
  }

  /** `save_processed_titles`: the titles in sorted order, one per line. */
  method Save(titles: set<string>) returns (file: string)
    ensures file == Serialize(SortedOf(titles))
  {
    var order := Sorted(titles);
    file := WriteLines(order);
  }


  lemma StrippedTitleLines(titles: seq<string>, lines: seq<string>)
    requires forall i :: 0 <= i < |titles| ==> NoEdgeSpace(titles[i])
    requires |lines| == |titles|
    requires forall i :: 0 <= i < |titles| ==> lines[i] == titles[i] + "\n"
    ensures StrippedLines(lines) == Elems(titles)
  {
    forall t | t in Elems(titles)
      ensures t in StrippedLines(lines)
    {
      var i :| 0 <= i < |titles| && titles[i] == t;
      StripLine(t);
      assert lines[i] in lines;
    }
    forall t | t in StrippedLines(lines)
      ensures t in Elems(titles)
    {
      var line :| line in lines && Strip(line) == t;
      var i :| 0 <= i < |lines| && lines[i] == line;
      StripLine(titles[i]);
    }
  }

  /** Reading back a file written from storable titles, in any order, gives
      exactly those titles. */
  lemma LoadSerialize(titles: seq<string>)
    requires forall i :: 0 <= i < |titles| ==> Storable(titles[i])
    ensures Load(Some(Serialize(titles))) == Elems(titles)
  {
    var s := Serialize(titles);
    SerializeNoReturn(titles);
    UniversalKeeps(s);
    LinesOfSerialize(titles);
    StrippedTitleLines(titles, Lines(s));
  }

  /** The store round trip: loading what `Save` wrote for a set of storable
      titles gives back the same set. */
  lemma SaveLoadRoundTrip(titles: set<string>)
    requires forall t :: t in titles ==> Storable(t)
    ensures Load(Some(Serialize(SortedOf(titles)))) == titles
  {
    SortedOfElems(titles);
    var xs := SortedOf(titles);
    forall i | 0 <= i < |xs|
      ensures Storable(xs[i])
    {
      assert xs[i] in Elems(xs);
    }
    LoadSerialize(xs);
  }

  /** A stripped line of a file the store reads is itself storable: the
      only line feed a line holds is its last character, which strip drops. */
  lemma StrippedLineStorable(line: string)
    requires '\r' !in line
    requires forall i :: 0 <= i < |line| - 1 ==> line[i] != '\n'
    ensures Storable(Strip(line))
  {
    var l := StripLeft(line);
    var r := StripRight(l);
    assert Strip(line) == r;
    var off := |line| - |l|;
    forall i | 0 <= i < |r|
      ensures r[i] != '\n' && r[i] != '\r'
    {
      assert r[i] == l[i] == line[off + i];
      assert line[off + i] in line;
      if i == |r| - 1 {
        assert !IsSpace(r[i]);
      }
    }
  }

  /** Every title the store loads is storable. */
  lemma LoadedStorable(file: Option<string>)
    ensures forall t :: t in Load(file) ==> Storable(t)
  {
    if file.Some? {
      var lines := Lines(Universal(file.value));
      forall t | t in Load(file)
        ensures Storable(t)
      {
        var line :| line in lines && Strip(line) == t;
        var k :| 0 <= k < |lines| && lines[k] == line;
        LinesShape(Universal(file.value), k);
        LinesFlatten(Universal(file.value));
        LineInFlatten(lines, k);
        StrippedLineStorable(line);
      }
    }
  }

  /** A title with a line break inside it is never among the loaded titles,
      whatever the file holds. */
  lemma LineBreakNeverLoaded(file: Option<string>, t: string)
    requires '\n' in t || '\r' in t
    ensures t !in Load(file)
  {
    LoadedStorable(file);
  }

  lemma {:induction false} LineInFlatten(lines: seq<string>, k: nat)
    requires k < |lines|
    ensures forall c :: c in lines[k] ==> c in Flatten(lines)
  {
    if k > 0 {
      LineInFlatten(lines[1..], k - 1);
    }
  }

  /** Saving the loaded titles together with new storable titles, then
      loading again, gives exactly the loaded titles and the new ones. */
  lemma StoreKeepsTitles(file: Option<string>, added: set<string>)
    requires forall t :: t in added ==> Storable(t)
    ensures Load(Some(Serialize(SortedOf(Load(file) + added)))) == Load(file) + added
  {
    LoadedStorable(file);
    SaveLoadRoundTrip(Load(file) + added);
  }

  lemma LinesOfTwoLines()
    ensures Lines("A\nB\n") == ["A\n", "B\n"]
  {
    var s := "A\nB\n";
    assert LineLength(s) == 2;
    assert s[2..] == "B\n";
    assert LineLength(s[2..]) == 2;
    assert s[2..][2..] == [];
    assert Lines(s[2..]) == [s[2..][..2]] + Lines(s[2..][2..]);
    assert Lines(s) == [s[..2]] + Lines(s[2..]);
    assert s[..2] == "A\n" && s[2..][..2] == "B\n";
  }

  /** A title with a line break inside it does not survive the store: "A\nB"
      comes back as the two titles "A" and "B", neither of them the original. */
  lemma MultiLineTitleSplits()
    ensures Load(Some(Serialize(["A\nB"]))) == {"A", "B"}
  {
    var s := Serialize(["A\nB"]);
    assert s == "A\nB\n";
    UniversalKeeps(s);
    LinesOfTwoLines();
    StrippedTitleLines(["A", "B"], Lines(s));
    assert Elems(["A", "B"]) == {"A", "B"};
  }
}
