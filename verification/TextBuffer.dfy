/** The growing text buffer behind the library's long log messages. */
module TextBuffers {
  import opened CStrings
  import opened Types

  const TMP_SIZE: nat := 512

  /** What `vsnprintf` into the 512-character scratch array keeps of a formatted text. */
  function Kept(fragment: string): (r: string)
    ensures r <= fragment && |r| < TMP_SIZE && (|r| == |fragment| || |r| == TMP_SIZE - 1)
    ensures r == fragment <==> |fragment| < TMP_SIZE
  {
    if |fragment| < TMP_SIZE then fragment else fragment[..TMP_SIZE - 1]
  }

  lemma KeptWholeIff(text: string, fragment: string)
    ensures text + Kept(fragment) == text + fragment <==> |fragment| < TMP_SIZE
  {
    assert |text + Kept(fragment)| == |text| + |Kept(fragment)|;
  }

  /** The fragments one after the other. */
  function Join(fragments: seq<string>): string {
    if fragments == [] then [] else Join(fragments[..|fragments| - 1]) + fragments[|fragments| - 1]
  }

  lemma JoinSnoc(fragments: seq<string>, i: nat, text: string)
    requires i < |fragments|
    ensures text + Join(fragments[..i + 1]) == (text + Join(fragments[..i])) + fragments[i]
  {
    var done := fragments[..i + 1];
    assert done[..|done| - 1] == fragments[..i] && done[|done| - 1] == fragments[i];
    Associative(text, Join(fragments[..i]), fragments[i]);
  }

  lemma Appended(after: string, text: string, tmp: string)
    requires |text| + |tmp| < |after| && after[|text| + |tmp|] == NUL && NUL !in tmp
    requires after[..|text|] == text && after[|text|..|text| + |tmp|] == tmp
    ensures after[..|text| + |tmp|] == text + tmp
    ensures NUL !in text ==> CStr(after) == text + tmp
  {
    var end := |text| + |tmp|;
    assert after[..end] == text + tmp;
    if NUL !in text {
      CStrIs(after, end);
    }
  }

  /** `retired` adds up the sizes of all blocks that were outgrown. */
  class TextBuffer {
    var buf: array<char>
    var size: nat
    var offset: nat
    ghost var retired: nat

    ghost predicate Valid()
      reads this
    {
      && buf.Length == size
      && (offset < size || offset == size == 0)
      && (if size == 0 then retired == 0 else retired < size)
    }

    ghost function Text(): string
      requires Valid()
      reads this, buf
    {
      buf[..offset]
    }

    /** The callers start from a block of their own and offset 0. */
    constructor (block: array<char>)
      ensures Valid() && Text() == "" && buf == block && retired == 0
    {
      buf := block;
      size := block.Length;
      offset := 0;
      retired := 0;
    }

    /** `realloc` to more than twice the size. */
    method Grow(needed: nat)
      requires Valid() && offset + needed >= size
      modifies this`buf, this`size, this`retired
      ensures Valid() && fresh(buf) && offset + needed < size
      ensures Text() == old(Text())
      ensures size == 2 * (offset + needed + 1) > 2 * old(size) && retired == old(retired) + old(size)
    {
      retired := retired + size;
      size := (offset + needed + 1) * 2;
      var block := new char[size];
      forall i | 0 <= i < buf.Length {
        block[i] := buf[i];
      }
      buf := block;
    }

    /** Appends one formatted fragment. The offset moves by the full length even when
        the scratch array cut the text off, so the buffer is the concatenation of
        its fragments if and only if they stay under 512 characters. */
    method Append(fragment: string)
      requires Valid() && NUL !in fragment
      modifies this, buf
      ensures Valid() && offset < size
      ensures buf == old(buf) || fresh(buf)
      ensures offset == old(offset) + |fragment|
      ensures buf[..old(offset)] == old(Text())
      ensures buf[old(offset)..old(offset) + |Kept(fragment)|] == Kept(fragment)
      ensures buf[old(offset) + |Kept(fragment)|] == NUL
      ensures |fragment| < TMP_SIZE ==> Text() == old(Text()) + fragment && buf[offset] == NUL
      ensures NUL !in old(Text()) ==> CStr(buf[..]) == old(Text()) + Kept(fragment)
      ensures NUL !in old(Text()) ==> (CStr(buf[..]) == old(Text()) + fragment <==> |fragment| < TMP_SIZE)
      ensures if old(offset) + |fragment| >= old(size)
              then size == 2 * (offset + 1) > 2 * old(size) && retired == old(retired) + old(size)
              else size == old(size) && retired == old(retired) && buf == old(buf)
    {
      ghost var text := Text();
      var needed := |fragment|;
      var tmp := Kept(fragment);
      if offset + needed >= size {
        Grow(needed);
      }
      WriteAt(buf, offset, tmp);
      Appended(buf[..], text, tmp);
      KeptWholeIff(text, fragment);
      offset := offset + needed;
    }

    /** Any sequence of appends with fragments under 512 characters: the buffer holds
        them joined, and the sizes of all outgrown blocks add up to less than its own. */
    method AppendAll(fragments: seq<string>)
      requires Valid() && forall f :: f in fragments ==> NUL !in f && |f| < TMP_SIZE
      modifies this, buf
      ensures Valid() && (buf == old(buf) || fresh(buf))
      ensures Text() == old(Text()) + Join(fragments)
      ensures fragments != [] ==> offset < size && buf[offset] == NUL && retired < size
    {
      ghost var text := Text();
      assert text + Join(fragments[..0]) == text;
      for i := 0 to |fragments|
        invariant Valid() && (buf == old(buf) || fresh(buf))
        invariant Text() == text + Join(fragments[..i])
        invariant i > 0 ==> offset < size && buf[offset] == NUL
      {
        JoinSnoc(fragments, i, text);
        assert fragments[i] in fragments;
        Append(fragments[i]);
      }
      assert fragments[..|fragments|] == fragments;
    }
  }
}
