/**
 * The combobox options of the entry forms are written as `f"{id} - {name}"`, and the
 * handlers read the id back with `option.split(" - ")[0]`.
 */
module ComboOption {
  import opened Wrappers
  import opened Decimal

  const Separator: string := " - "


  /** `sep` occurs in `s` starting at index `j`. */
  predicate OccursAt(s: string, sep: string, j: nat) {
    j + |sep| <= |s| && s[j..j + |sep|] == sep
  }

  /** Past the first character, `sep` occurs in `s` where it occurs in `s[1..]` one place earlier. */
  lemma OccursAtTail(s: string, sep: string, j: nat)
    requires 1 <= j && 1 <= |s|
    ensures OccursAt(s, sep, j) <==> OccursAt(s[1..], sep, j - 1)
  {
    if j + |sep| <= |s| {
      assert s[1..][j - 1..j - 1 + |sep|] == s[j..j + |sep|];
    }
  }

  /** `s.split(sep)[0]`: the text before the first occurrence of `sep`, or all of `s` if there is none. */
  function SplitHead(s: string, sep: string): (r: string)
    requires |sep| > 0
    ensures r <= s
    ensures forall j: nat :: j < |r| ==> !OccursAt(s, sep, j)
    ensures r != s ==> OccursAt(s, sep, |r|)
    decreases |s|
  {
    if |s| < |sep| then s
    else if s[..|sep|] == sep then []
    else
      var t := SplitHead(s[1..], sep);
      assert forall j: nat :: 1 <= j <= |t| ==> (OccursAt(s, sep, j) <==> OccursAt(s[1..], sep, j - 1)) by {
        forall j: nat | 1 <= j <= |t| {
          OccursAtTail(s, sep, j);
        }
      }
      assert !OccursAt(s, sep, 0) by { assert s[0..|sep|] == s[..|sep|]; }
      assert [s[0]] + t <= s by { assert s == [s[0]] + s[1..]; }
      [s[0]] + t
  }

  /**
   * The id text a handler reads from the selected option: everything before the first
   * " - ", or the whole option when it holds none.
   */
  function Decode(option: string): (r: string)
    ensures r <= option
    ensures forall j: nat :: j < |r| ==> !OccursAt(option, Separator, j)
    ensures r != option ==> OccursAt(option, Separator, |r|)
  {
    SplitHead(option, Separator)
  }

  /** Text with no space in it, followed by the separator, splits off exactly that text. */
  lemma {:induction false} SplitHeadBeforeSeparator(p: string, rest: string)
    requires forall k :: 0 <= k < |p| ==> p[k] != ' '
    ensures SplitHead(p + Separator + rest, Separator) == p
    decreases |p|
  {
    var s := p + Separator + rest;
    if p == [] {
      assert s[..3] == Separator;
    } else {
      assert s[..3] != Separator by { assert s[0] == p[0]; }
      assert s[1..] == p[1..] + Separator + rest;
      SplitHeadBeforeSeparator(p[1..], rest);
    }
  }

  /**
   * `f"{id} - {name}"`: the option is the id text, the separator and the name, and
   * whatever the name contains (even " - ") it decodes to `str(id)`.
   */
  function Encode(id: int, name: string): (option: string)
    ensures IntToString(id) <= option && |option| == |IntToString(id)| + |Separator| + |name|
    ensures Decode(option) == IntToString(id)
  {
    SplitHeadBeforeSeparator(IntToString(id), name);
    IntToString(id) + Separator + name
  }

  /** The decoded text is non-empty and reads back as the id it was built from. */
  lemma DecodedIdentifiesOption(id: int, name: string)
    ensures Decode(Encode(id, name)) != []
    ensures ParseInt(Decode(Encode(id, name))) == Some(id)
  {
    ParseIntOfIntToString(id);
  }

  /** An empty combobox reads back as empty text, which the handlers' required-field check refuses. */
  lemma DecodeEmpty()
    ensures Decode([]) == []
  {
  }
}
