/** Domain names: from the dotted form an application writes to the labels of a message, and back. */
module DnsName {
  import opened Common

  /** DNS_MAX_NAME_SIZE. */
  const MAX_NAME: nat := 255
  const MAX_LABEL: nat := 63
  type Octet = n: nat | n < 0x100

  const DOT: Octet := 0x2e

  datatype Error = InvalidName | NameTooLong
  datatype Encoded = Raw(name: seq<Octet>) | Bad(error: Error)

  /** The pieces between the dots: one more than there are dots. */
  function Split(s: seq<Octet>): (r: seq<seq<Octet>>)
    ensures |r| >= 1
  {
    if s == [] then [[]]
    else if s[0] == DOT then [[]] + Split(s[1..])
    else
      var rest := Split(s[1..]);
      [[s[0]] + rest[0]] + rest[1..]
  }

  function WithoutTrailingDot(name: seq<Octet>): seq<Octet> {
    if name != [] && name[|name| - 1] == DOT then name[..|name| - 1] else name
  }

  /** A length octet and the label. */
  function Label(l: seq<Octet>): seq<Octet>
    requires |l| <= MAX_LABEL
  {
    [|l|] + l
  }

  /** The loop over the labels, with what has been pushed so far. */
  function PushLabels(labels: seq<seq<Octet>>, raw: seq<Octet>): Encoded {
    if labels == [] then
      if |raw| + 1 <= MAX_NAME then Raw(raw + [0]) else Bad(NameTooLong)
    else if |labels[0]| > MAX_LABEL || labels[0] == [] then Bad(InvalidName)
    else if |raw| + 1 + |labels[0]| > MAX_NAME then Bad(NameTooLong)
    else PushLabels(labels[1..], raw + Label(labels[0]))
  }

  function Encode(name: seq<Octet>): Encoded {
    if name == [] then Bad(InvalidName) else PushLabels(Split(WithoutTrailingDot(name)), [])
  }

  // ---- what it means ----

  predicate GoodLabels(labels: seq<seq<Octet>>) {
    forall i :: 0 <= i < |labels| ==> 1 <= |labels[i]| <= MAX_LABEL
  }

  /** The labels as a message carries them, without the terminator. */
  function Wire(labels: seq<seq<Octet>>): seq<Octet>
    requires GoodLabels(labels)
  {
    if labels == [] then [] else Label(labels[0]) + Wire(labels[1..])
  }

  lemma {:induction false} PushMeaning(labels: seq<seq<Octet>>, raw: seq<Octet>)
    requires |raw| <= MAX_NAME
    ensures PushLabels(labels, raw).Raw? <==> GoodLabels(labels) && |raw| + |Wire(labels)| + 1 <= MAX_NAME
    ensures PushLabels(labels, raw).Raw? ==> PushLabels(labels, raw).name == raw + Wire(labels) + [0]
    ensures PushLabels(labels, raw) == Bad(InvalidName) ==> !GoodLabels(labels)
    decreases |labels|
  {
    if labels == [] {
      assert raw + Wire(labels) == raw;
    } else if 1 <= |labels[0]| <= MAX_LABEL {
      if GoodLabels(labels[1..]) {
        assert GoodLabels(labels);
        assert raw + Label(labels[0]) + Wire(labels[1..]) == raw + Wire(labels);
      }
      if |raw| + 1 + |labels[0]| <= MAX_NAME {
        PushMeaning(labels[1..], raw + Label(labels[0]));
      }
    }
  }

  /** Reading labels back until the terminator. */
  function Decode(raw: seq<Octet>): Option<seq<seq<Octet>>>
    decreases |raw|
  {
    if raw == [] then None
    else
      var n: nat := raw[0];
      if n == 0 then Some([])
      else if |raw| < 1 + n then None
      else
        var rest := Decode(raw[1 + n..]);
        if rest.None? then None else Some([raw[1..1 + n]] + rest.value)
  }

  /** A label in front of anything is read back, and what follows it is what is left. */
  lemma LabelDecodes(l: seq<Octet>, rest: seq<Octet>)
    requires 1 <= |l| <= MAX_LABEL
    ensures var raw := Label(l) + rest;
      raw[0] == |l| && |raw| >= 1 + |l| && raw[1..1 + |l|] == l && raw[1 + |l|..] == rest
  {
  }

  lemma {:induction false} WireDecodes(labels: seq<seq<Octet>>)
    requires GoodLabels(labels)
    ensures Decode(Wire(labels) + [0]) == Some(labels)
  {
    if labels == [] {
      assert Wire(labels) + [0] == [0];
    } else {
      hide Label;
      var rest := Wire(labels[1..]) + [0];
      LabelDecodes(labels[0], rest);
      assert Wire(labels) + [0] == Label(labels[0]) + rest;
      WireDecodes(labels[1..]);
      assert [labels[0]] + labels[1..] == labels;
    }
  }

  function Joined(labels: seq<seq<Octet>>): seq<Octet>
    requires |labels| >= 1
  {
    if |labels| == 1 then labels[0] else labels[0] + [DOT] + Joined(labels[1..])
  }

  lemma {:induction false} SplitJoins(s: seq<Octet>)
    ensures Joined(Split(s)) == s
  {
    if s != [] {
      SplitJoins(s[1..]);
      var rest := Split(s[1..]);
      if s[0] == DOT {
        assert ([[]] + rest)[1..] == rest;
        assert Joined(Split(s)) == [] + [DOT] + Joined(rest);
      } else {
        var whole := [[s[0]] + rest[0]] + rest[1..];
        assert whole[1..] == rest[1..];
        if |rest| > 1 {
          assert Joined(whole) == ([s[0]] + rest[0]) + [DOT] + Joined(rest[1..]);
          assert Joined(rest) == rest[0] + [DOT] + Joined(rest[1..]);
        }
      }
      assert [s[0]] + s[1..] == s;
    }
  }

  /**
   A name is accepted exactly when every label has 1 to 63 octets and the whole fits; what is sent then
   reads back as the name, without its trailing dot.
   */
  lemma EncodeRoundTrip(name: seq<Octet>)
    ensures var labels := Split(WithoutTrailingDot(name)); var e := Encode(name);
      && (e.Raw? <==> name != [] && GoodLabels(labels) && |Wire(labels)| + 1 <= MAX_NAME)
      && (e.Raw? ==>
            Decode(e.name) == Some(labels) && Joined(labels) == WithoutTrailingDot(name) && |e.name| <= MAX_NAME)
      && (e == Bad(InvalidName) ==> name == [] || !GoodLabels(labels))
  {
    hide Wire, Decode, Split, Joined, PushLabels;
    var labels := Split(WithoutTrailingDot(name));
    PushMeaning(labels, []);
    SplitJoins(WithoutTrailingDot(name));
    if Encode(name).Raw? {
      WireDecodes(labels);
      assert [] + Wire(labels) + [0] == Wire(labels) + [0];
    }
  }

  /** A trailing dot makes no difference. */
  lemma TrailingDotIgnored(name: seq<Octet>)
    requires name != [] && name[|name| - 1] != DOT
    ensures Encode(name + [DOT]) == Encode(name)
  {
    assert (name + [DOT])[..|name|] == name;
  }
}
