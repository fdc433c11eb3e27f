/**
 * The front-matter splitter of src/frontmatter.rs: a document may open with a `---` line, and the
 * text up to the next `---` line is YAML metadata; everything after it is the content.
 * YAML deserialization is a parameter.
 */
module FrontMatter {
  import opened Wrappers
  import opened Text

  const Delimiter: string := "---\n"

  datatype FrontMatter<T> = FrontMatter(content: string, data: Option<T>)

  /**
   * The delimited block, if there is one: the input starts with `---\n` and `input[3..]` contains
   * `---\n`; then it is split at the first such delimiter. The metadata text keeps the `\n` left over
   * from the opening delimiter.
   */
  function Block(input: string): (r: Option<(string, string)>)
    ensures r.None? <==> !StartsWith(input, Delimiter) || !Contains(input[3..], Delimiter)
    ensures r.Some? ==> input == "---" + r.value.0 + Delimiter + r.value.1
    ensures r.Some? ==> r.value.0 != "" && r.value.0[0] == '\n'
    ensures r.Some? ==> forall j: nat :: j < |r.value.0| ==> !OccursAt(input[3..], Delimiter, j)
  {
    if StartsWith(input, Delimiter) then
      match SplitOnce(input[3..], Delimiter)
      case None => None
      case Some((fm, content)) =>
        assert input == input[..3] + input[3..];
        assert fm != "" by {
          assert input[3..][0] == '\n';
        }
        Some((fm, content))
    else None
  }

  /**
   * `FrontMatter::parse`. Without a delimited block the whole input is the content and there is
   * no data; with one, the data is what `deserialize` makes of the block, and its failure is the
   * only error.
   */
  function Parse<T>(input: string, deserialize: string -> Result<Option<T>>): (r: Result<FrontMatter<T>>)
    ensures Block(input).None? ==> r == Ok(FrontMatter(input, None))
    ensures Block(input).Some? ==>
      var (fm, content) := Block(input).value;
      r == match deserialize(fm) { case Ok(d) => Ok(FrontMatter(content, d)) case Err(e) => Err(e) }
    ensures r.Err? <==> Block(input).Some? && deserialize(Block(input).value.0).Err?
    ensures r.Ok? ==> |r.value.content| <= |input| && input[|input| - |r.value.content|..] == r.value.content
  {
    match Block(input)
    case None => Ok(FrontMatter(input, None))
    case Some((fm, content)) =>
      assert input == ("---" + fm + Delimiter) + content;
      var data :- deserialize(fm);
      Ok(FrontMatter(content, data))
  }

  lemma FirstOccurrence(s: string, pat: string, i: nat)
    requires OccursAt(s, pat, i)
    requires forall j: nat :: j < i ==> !OccursAt(s, pat, j)
    ensures SplitOnce(s, pat) == Some((s[..i], s[i + |pat|..]))
  {
    var k := IndexOf(s, pat);
    assert k.Some?;
    assert k.value == i;
  }

  /**
   * Round trip: a document assembled from a metadata text without a `---\n` line and any content
   * parses back to exactly that content, with the metadata text (behind the leftover `\n`) handed
   * to the deserializer.
   */
  lemma RoundTrip<T>(fm: string, content: string, deserialize: string -> Result<Option<T>>)
    requires !Contains(fm, Delimiter)
    ensures Block(Delimiter + fm + Delimiter + content) == Some(("\n" + fm, content))
    ensures var r := Parse(Delimiter + fm + Delimiter + content, deserialize);
      deserialize("\n" + fm).Ok? ==> r == Ok(FrontMatter(content, deserialize("\n" + fm).value))
  {
    var input := Delimiter + fm + Delimiter + content;
    var s := input[3..];
    assert s == "\n" + fm + Delimiter + content;
    var i := |fm| + 1;
    assert s[i..i + 4] == Delimiter;
    forall j: nat | j < i ensures !OccursAt(s, Delimiter, j) {
      if j == 0 {
        assert s[0] == '\n';
      } else if j + 4 <= i {
        assert s[j..j + 4] == fm[j - 1..j + 3];
        assert !OccursAt(fm, Delimiter, j - 1);
      } else {
        assert s[j + 3] == '-';
      }
    }
    FirstOccurrence(s, Delimiter, i);
    assert s[..i] == "\n" + fm;
    assert s[i + 4..] == content;
    assert StartsWith(input, Delimiter);
  }
}
