/** The chain-order broadcast frame: a type byte, then the plugin ids as UTF-8 text
    joined by commas. */
module ChainOrderFrames {
  import opened Seqs
  import PluginIds

  type byte = b: int | 0 <= b < 256
  type Text = seq<byte>

  const COMMA: byte := 44
  const AUDIO_CHAIN_ORDER: byte := 0x1E
  const MAX_BYTE_LENGTH: nat := 1024

  datatype FrameError = TooLong | NoTypeByte | WrongType
  datatype Result<T> = Ok(value: T) | Err(error: FrameError)

  function Join(ids: seq<Text>): Text {
    if ids == [] then []
    else if |ids| == 1 then ids[0]
    else ids[0] + [COMMA] + Join(ids[1..])
  }

  /** `Split(',')`: always at least one part. */
  function Split(csv: Text): (parts: seq<Text>)
    ensures parts != []
    ensures Join(parts) == csv
    ensures forall p :: p in parts ==> COMMA !in p
  {
    if csv == [] then [[]]
    else
      var rest := Split(csv[1..]);
      if csv[0] == COMMA then
        assert ([[]] + rest)[1..] == rest;
        [[]] + rest
      else
        var parts := [[csv[0]] + rest[0]] + rest[1..];
        assert parts[1..] == rest[1..];
        assert rest == [rest[0]] + rest[1..];
        parts
  }

  ghost predicate CommaFree(ids: seq<Text>) {
    forall id :: id in ids ==> COMMA !in id
  }

  function Frame(ids: seq<Text>): Result<seq<byte>> {
    var csv := Join(ids);
    if 1 + |csv| > MAX_BYTE_LENGTH then Err(TooLong) else Ok([AUDIO_CHAIN_ORDER] + csv)
  }

  function Deserialize(bytes: seq<byte>): Result<seq<Text>> {
    if |bytes| < 1 then Err(NoTypeByte)
    else if bytes[0] != AUDIO_CHAIN_ORDER then Err(WrongType)
    else if bytes[1..] == [] then Ok([])
    else Ok(Split(bytes[1..]))
  }

  class BufferWriter {
    var written: seq<byte>

    constructor ()
      ensures written == []
    {
      written := [];
    }
  }

  /** Appends one frame, or nothing when the text is over the cap. */
  method Serialize(ids: seq<Text>, writer: BufferWriter) returns (error: Option<FrameError>)
    modifies writer
    ensures match Frame(ids)
            case Ok(frame) => error == None && writer.written == old(writer.written) + frame
            case Err(e) => error == Some(e) && writer.written == old(writer.written)
  {
    var csv := Join(ids);
    var totalLen := 1 + |csv|;
    if totalLen > MAX_BYTE_LENGTH {
      return Some(TooLong);
    }
    writer.written := writer.written + [AUDIO_CHAIN_ORDER] + csv;
    assert writer.written == old(writer.written) + ([AUDIO_CHAIN_ORDER] + csv);
    error := None;
  }

  /** The ids' texts with byte 44 between any two. */
  lemma {:induction false} JoinMeaning(a: seq<Text>, b: seq<Text>)
    requires a != [] && b != []
    ensures Join([a[0]]) == a[0]
    ensures Join(a + b) == Join(a) + [44] + Join(b)
  {
    if |a| == 1 {
      assert (a + b)[1..] == b;
    } else {
      JoinMeaning(a[1..], b);
      assert (a + b)[1..] == a[1..] + b;
      assert Join(a) + [44] + Join(b) == a[0] + [COMMA] + (Join(a[1..]) + [44] + Join(b));
    }
  }

  /** A frame is byte 0x1E and that text, at most 1024 bytes in all. */
  lemma FrameMeaning(ids: seq<Text>)
    ensures Frame(ids).Ok? <==> |Join(ids)| < 1024
    ensures Frame(ids).Ok? ==> Frame(ids).value[0] == 0x1E && Frame(ids).value[1..] == Join(ids)
  {
  }

  lemma SplitHead(c: byte, csv: Text, first: Text, rest: seq<Text>)
    requires c != COMMA && Split(csv) == [first] + rest
    ensures Split([c] + csv) == [[c] + first] + rest
  {
    assert ([c] + csv)[1..] == csv;
  }

  lemma {:induction false} SplitPrefix(id: Text, csv: Text)
    requires COMMA !in id
    ensures Split(id + [COMMA] + csv) == [id] + Split(csv)
  {
    if id == [] {
      assert id + [COMMA] + csv == [COMMA] + csv;
    } else {
      SplitPrefix(id[1..], csv);
      SplitHead(id[0], id[1..] + [COMMA] + csv, id[1..], Split(csv));
      assert id == [id[0]] + id[1..];
      assert id + [COMMA] + csv == [id[0]] + (id[1..] + [COMMA] + csv);
    }
  }

  lemma {:induction false} SplitWhole(id: Text)
    requires COMMA !in id
    ensures Split(id) == [id]
  {
    if id != [] {
      SplitWhole(id[1..]);
      assert [id[0]] + id[1..] == id;
    }
  }

  lemma {:induction false} SplitInvertsJoin(ids: seq<Text>)
    requires ids != [] && CommaFree(ids)
    ensures Split(Join(ids)) == ids
  {
    if |ids| == 1 {
      SplitWhole(ids[0]);
      assert ids == [ids[0]];
    } else {
      SplitInvertsJoin(ids[1..]);
      SplitPrefix(ids[0], Join(ids[1..]));
      assert ids == [ids[0]] + ids[1..];
    }
  }

  /** A list within the cap comes back exactly when no id holds a comma and the list
      is not the single empty id, whose frame also means "no plugins". */
  lemma RoundTrip(ids: seq<Text>)
    requires Frame(ids).Ok?
    ensures Deserialize(Frame(ids).value) == Ok(ids) <==> CommaFree(ids) && ids != [[]]
  {
    var csv := Join(ids);
    assert Frame(ids).value[1..] == csv;
    if CommaFree(ids) && ids != [] {
      SplitInvertsJoin(ids);
      if csv == [] {
        assert ids == Split([]) == [[]];
      }
    }
  }

  /** Every frame within the cap that is accepted is the frame of what was read. */
  lemma FrameOfDeserialized(bytes: seq<byte>)
    requires Deserialize(bytes).Ok?
    ensures Frame(Deserialize(bytes).value) == if |bytes| > MAX_BYTE_LENGTH then Err(TooLong) else Ok(bytes)
  {
    assert bytes == [bytes[0]] + bytes[1..];
    if bytes[1..] == [] {
      assert Join([]) == [];
    }
  }

  /** The UTF-8 text of an accepted id: one byte per character. */
  function Utf8(id: string): (t: Text)
    requires PluginIds.Accepted(id)
    ensures |t| == |id|
    ensures forall k :: 0 <= k < |t| ==> t[k] == id[k] as int
  {
    assert forall k :: 0 <= k < |id| ==> id[k] as int < 256 by {
      forall k | 0 <= k < |id| ensures id[k] as int < 256 {
        PluginIds.AcceptedAlphabet(id, k);
      }
    }
    seq(|id|, k requires 0 <= k < |id| => id[k] as int)
  }

  lemma AcceptedHasNoComma(id: string)
    requires PluginIds.Accepted(id)
    ensures COMMA !in Utf8(id) && Utf8(id) != []
  {
    forall k | 0 <= k < |id| ensures Utf8(id)[k] != COMMA {
      PluginIds.AcceptedAlphabet(id, k);
    }
  }

  function Texts(ids: seq<string>): (texts: seq<Text>)
    requires forall id :: id in ids ==> PluginIds.Accepted(id)
    ensures |texts| == |ids|
    ensures forall i :: 0 <= i < |ids| ==> texts[i] == Utf8(ids[i])
  {
    seq(|ids|, i requires 0 <= i < |ids| => Utf8(ids[i]))
  }

  /** Lists of ids the manifest validator accepts always come back. */
  lemma AcceptedIdsRoundTrip(ids: seq<string>)
    requires forall id :: id in ids ==> PluginIds.Accepted(id)
    requires Frame(Texts(ids)).Ok?
    ensures Deserialize(Frame(Texts(ids)).value) == Ok(Texts(ids))
  {
    var texts := Texts(ids);
    forall t | t in texts ensures COMMA !in t && t != [] {
      var i :| 0 <= i < |texts| && texts[i] == t;
      AcceptedHasNoComma(ids[i]);
    }
    assert |texts| == 1 ==> texts[0] in texts;
    RoundTrip(texts);
  }
}
