/**
  The framed pipe protocol of the plugin: an inbound message is read in chunks
  of `BufferSize` bytes until a short read, the text from its first `{` to its
  last `}` is taken as the JSON command, and every outbound JSON response is
  followed by the literal terminator `<<END>>`.

  The Win32 calls are not modelled. A read is given as its outcome: either a
  failure, or the buffer decoded as UTF-8 (invalid bytes dropped) together
  with the byte count the call reported.
*/
module Transport {
  import opened Wrappers
  import opened PyText

  const BufferSize: nat := 4096
  const Terminator := "<<END>>"

  /** One `ReadFile` call on the command pipe. */
  datatype Read = ReadFailed | ReadOk(text: string, count: nat)

  /** A failed read or a short read ends the message. */
  predicate EndsMessage(r: Read) {
    r.ReadFailed? || r.count < BufferSize
  }

  predicate HasEnd(channel: seq<Read>) {
    exists k :: 0 <= k < |channel| && EndsMessage(channel[k])
  }

  /** Position of the read that ends the message. */
  function FirstEnd(channel: seq<Read>): (k: nat)
    requires HasEnd(channel)
    ensures k < |channel| && EndsMessage(channel[k])
    ensures forall j :: 0 <= j < k ==> !EndsMessage(channel[j])
  {
    if EndsMessage(channel[0]) then 0
    else
      assert HasEnd(channel[1..]) by {
        var k :| 0 <= k < |channel| && EndsMessage(channel[k]);
        assert k > 0 && EndsMessage(channel[1..][k - 1]);
      }
      1 + FirstEnd(channel[1..])
  }

  /**
    What one read contributes: the decoded buffer cut at the byte count, as
    Python's slice does (a slice past the end keeps the whole text).
  */
  function Chunk(r: Read): string {
    match r
    case ReadFailed => ""
    case ReadOk(text, count) => if count <= |text| then text[..count] else text
  }

  function Chunks(rs: seq<Read>): (cs: seq<string>)
    ensures |cs| == |rs|
    ensures forall i :: 0 <= i < |rs| ==> cs[i] == Chunk(rs[i])
  {
    if rs == [] then [] else Chunks(rs[..|rs| - 1]) + [Chunk(rs[|rs| - 1])]
  }

  /** `''.join(chunks)`. */
  function Join(chunks: seq<string>): string {
    if chunks == [] then "" else Join(chunks[..|chunks| - 1]) + chunks[|chunks| - 1]
  }

  /** Index of the first occurrence of `c` in `s`. */
  function FirstIndexOf(s: string, c: char): (r: Option<nat>)
    ensures r.None? <==> (forall i :: 0 <= i < |s| ==> s[i] != c)
    ensures r.Some? ==> r.value < |s| && s[r.value] == c && forall i :: 0 <= i < r.value ==> s[i] != c
  {
    if s == [] then None
    else if s[0] == c then Some(0)
    else match FirstIndexOf(s[1..], c)
      case None => None
      case Some(k) => Some(k + 1)
  }

  /** Index of the last occurrence of `c` in `s`. */
  function LastIndexOf(s: string, c: char): (r: Option<nat>)
    ensures r.None? <==> (forall i :: 0 <= i < |s| ==> s[i] != c)
    ensures r.Some? ==> r.value < |s| && s[r.value] == c && forall i :: r.value < i < |s| ==> s[i] != c
  {
    if s == [] then None
    else if s[|s| - 1] == c then Some(|s| - 1)
    else LastIndexOf(s[..|s| - 1], c)
  }

  /** Some `{` comes before some `}`: the pattern `{.*}` matches somewhere. */
  predicate HasObjectSpan(raw: string) {
    exists i, j :: 0 <= i < j < |raw| && raw[i] == '{' && raw[j] == '}'
  }

  /** `raw[i..j+1]` runs from the first `{` to the last `}` of `raw`. */
  predicate GreedySpan(raw: string, i: nat, j: nat) {
    i < j < |raw| && raw[i] == '{' && raw[j] == '}'
    && (forall k :: 0 <= k < i ==> raw[k] != '{')
    && (forall k :: j < k < |raw| ==> raw[k] != '}')
  }

  /**
    `re.search(r'{.*}', raw, re.DOTALL)`: the leftmost match starts at the
    first `{`, and the greedy `.*` runs to the last `}`. There is no match
    exactly when no `{` precedes a `}`.
  */
  function ExtractObject(raw: string): (r: Option<string>)
    ensures r.None? <==> !HasObjectSpan(raw)
    ensures r.Some? ==> exists i: nat, j: nat :: GreedySpan(raw, i, j) && r.value == raw[i..j + 1]
  {
    match FirstIndexOf(raw, '{')
    case None => None
    case Some(i) =>
      match LastIndexOf(raw, '}')
      case None => None
      case Some(j) =>
        if i < j then
          assert GreedySpan(raw, i, j);
          Some(raw[i..j + 1])
        else None
  }

  /**
    `read_command`: read chunks until the first short read, join them, strip
    the text and extract the JSON object. `None` when a read fails or when no
    `{...}` span is present; decoding the extracted text (`json.loads`) is left
    to the caller. `used` is the number of `ReadFile` calls made.
  */
  method ReadCommand(channel: seq<Read>) returns (json: Option<string>, used: nat)
    requires HasEnd(channel)
    ensures used == FirstEnd(channel) + 1
    ensures channel[used - 1].ReadFailed? ==> json == None
    ensures channel[used - 1].ReadOk? ==>
      json == ExtractObject(Strip(Join(Chunks(channel[..used]))))
  {
    var chunks: seq<string> := [];
    var i := 0;
    var end := FirstEnd(channel);
    while true
      invariant i <= end
      invariant chunks == Chunks(channel[..i])
      decreases end - i
    {
      var r := channel[i];
      if r.ReadFailed? {
        return None, i + 1;
      }
      chunks := chunks + [Chunk(r)];
      assert channel[..i + 1][..i] == channel[..i];
      if r.count < BufferSize {
        used := i + 1;
        break;
      }
      i := i + 1;
    }
    var raw := Strip(Join(chunks));
    json := ExtractObject(raw);
  }

  /** `write_response`: the serialized JSON followed by the terminator. */
  function Frame(json: string): string {
    json + Terminator
  }

  /**
    How a reader splits its byte stream into messages: the text before the
    first terminator, and what follows that terminator. `None` when no
    terminator has arrived yet.
  */
  function SplitFrame(stream: string): Option<(string, string)>
    decreases |stream|
  {
    if Terminator <= stream then Some(("", stream[|Terminator|..]))
    else if stream == [] then None
    else match SplitFrame(stream[1..])
      case None => None
      case Some(pair) => Some(([stream[0]] + pair.0, pair.1))
  }

  /** No proper suffix of the terminator is also a prefix of it. */
  lemma TerminatorUnbordered(p: nat)
    requires 0 < p < |Terminator|
    ensures !(Terminator[p..] <= Terminator)
  {
    assert Terminator[p..][0] != Terminator[0] || Terminator[p..][1] != Terminator[1];
  }

  /**
    A frame whose JSON text does not itself contain the terminator is read
    back exactly, whatever follows it in the stream: frames never run into
    one another.
  */
  lemma {:induction false} FrameRoundTrip(json: string, rest: string)
    requires !Contains(json, Terminator)
    ensures SplitFrame(Frame(json) + rest) == Some((json, rest))
    decreases |json|
  {
    var stream := Frame(json) + rest;
    if json == [] {
      assert stream == Terminator + rest;
    } else {
      assert !(Terminator <= stream) by {
        if Terminator <= stream {
          assert Terminator <= json + Terminator by {
            assert (json + Terminator)[..|Terminator|] == stream[..|Terminator|];
          }
          TerminatorCannotStraddle(json);
          assert Contains(json, Terminator);
        }
      }
      assert !Contains(json[1..], Terminator);
      assert stream[1..] == Frame(json[1..]) + rest;
      FrameRoundTrip(json[1..], rest);
      assert [json[0]] + json[1..] == json;
    }
  }

  /**
    When the JSON text does contain the terminator (a reply quoting
    `<<END>>`), the reader cuts the message short.
  */
  lemma {:induction false} FrameCutShort(json: string, rest: string)
    requires Contains(json, Terminator)
    ensures SplitFrame(Frame(json) + rest).Some?
    ensures |SplitFrame(Frame(json) + rest).value.0| < |json|
    decreases |json|
  {
    var stream := Frame(json) + rest;
    if Terminator <= json {
      assert stream[..|Terminator|] == json[..|Terminator|];
    } else {
      assert json != [] && Contains(json[1..], Terminator);
      assert stream[1..] == Frame(json[1..]) + rest;
      assert !(Terminator <= stream) by {
        if Terminator <= stream {
          TerminatorCannotStraddle(json);
        }
      }
      FrameCutShort(json[1..], rest);
    }
  }

  /** A terminator found at the start of `json + Terminator` lies inside `json`. */
  lemma TerminatorCannotStraddle(json: string)
    requires json != [] && Terminator <= json + Terminator
    ensures Terminator <= json
  {
    if |json| < |Terminator| {
      var p := |json|;
      assert (json + Terminator)[p..|Terminator|] == Terminator[..|Terminator| - p];
      assert Terminator[p..] == Terminator[..|Terminator| - p];
      TerminatorUnbordered(p);
    } else {
      assert (json + Terminator)[..|Terminator|] == json[..|Terminator|];
    }
  }
}
