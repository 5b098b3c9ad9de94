/** The argument list of a remote command call, as one string on the wire. */
module CommandCodec {

  /** Each argument followed by a comma; a single space for no arguments. */
  function Joined(args: seq<string>): string {
    if args == [] then "" else args[0] + "," + Joined(args[1..])
  }

  function Encoded(args: seq<string>): string { if args == [] then " " else Joined(args) }

  /** The index of the first comma, or the length. */
  function FindComma(s: string): (n: nat)
    ensures n <= |s| && (n < |s| ==> s[n] == ',')
    ensures forall i :: 0 <= i < n ==> s[i] != ','
  {
    if s == "" || s[0] == ',' then 0 else 1 + FindComma(s[1..])
  }

  /** The pieces that end with a comma; what follows the last comma is dropped. */
  function Decoded(s: string): seq<string>
    decreases |s|
  {
    var pos := FindComma(s);
    if pos == |s| then [] else [s[..pos]] + Decoded(s[pos + 1..])
  }

  /** A string split at every comma. */
  function Split(s: string): (pieces: seq<string>)
    ensures |pieces| >= 1
    ensures |pieces| == 1 <==> ',' !in s
    ensures |pieces| == 1 ==> pieces == [s]
    decreases |s|
  {
    var pos := FindComma(s);
    if pos == |s| then assert s[..pos] == s; [s] else [s[..pos]] + Split(s[pos + 1..])
  }

  function SplitAll(args: seq<string>): seq<string> {
    if args == [] then [] else Split(args[0]) + SplitAll(args[1..])
  }

  method EncodeArgs(args: seq<string>) returns (out: string)
    ensures out == Encoded(args)
  {
    out := "";
    if args == [] {
      out := out + " ";
    } else {
      var i := 0;
      while i < |args|
        invariant 0 <= i <= |args|
        invariant out + Joined(args[i..]) == Joined(args)
      {
        assert args[i..][0] == args[i] && args[i..][1..] == args[i + 1..];
        out := out + args[i];
        out := out + ",";
        i := i + 1;
      }
    }
  }

  lemma Regrouped(a: seq<string>, b: seq<string>, c: seq<string>)
    ensures a + b + c == a + (b + c)
  {
  }

  method DecodeArgs(wire: string) returns (result: seq<string>)
    ensures result == Decoded(wire)
  {
    var args := wire;
    result := [];
    var pos := FindComma(args);
    while pos < |args|
      invariant pos == FindComma(args)
      invariant result + Decoded(args) == Decoded(wire)
      decreases |args|
    {
      Regrouped(result, [args[..pos]], Decoded(args[pos + 1..]));
      result := result + [args[..pos]];
      args := args[pos + 1..];
      pos := FindComma(args);
    }
  }

  lemma {:induction false} FirstComma(x: string, y: string)
    requires ',' !in x
    ensures FindComma(x + "," + y) == |x|
  {
    var s := x + "," + y;
    if x == "" {
      assert s[0] == ',';
    } else {
      FirstComma(x[1..], y);
      assert s[0] == x[0] && s[1..] == x[1..] + "," + y;
    }
  }

  lemma DecodeHead(x: string, y: string)
    requires ',' !in x
    ensures Decoded(x + "," + y) == [x] + Decoded(y)
  {
    var s := x + "," + y;
    FirstComma(x, y);
    assert s[..|x|] == x && s[|x| + 1..] == y;
  }

  lemma SplitHead(x: string, y: string)
    requires ',' !in x
    ensures Split(x + "," + y) == [x] + Split(y)
  {
    var s := x + "," + y;
    FirstComma(x, y);
    assert s[..|x|] == x && s[|x| + 1..] == y;
  }

  lemma Regroup(x: string, y: string, rest: string)
    ensures x + "," + y + "," + rest == x + "," + (y + "," + rest)
  {
  }

  /** Decoding gives the pieces of the first argument and goes on after its own comma. */
  lemma {:induction false} DecodeStep(a: string, rest: string)
    ensures Decoded(a + "," + rest) == Split(a) + Decoded(rest)
    decreases |a|
  {
    var pos := FindComma(a);
    if pos == |a| {
      assert a[..pos] == a;
      DecodeHead(a, rest);
    } else {
      var x, y := a[..pos], a[pos + 1..];
      assert a == x + "," + y;
      DecodeStep(y, rest);
      Regroup(x, y, rest);
      SplitHead(x, y);
      DecodeHead(x, y + "," + rest);
      Regrouped([x], Split(y), Decoded(rest));
    }
  }

  /** Decoding an encoded list yields its arguments split at commas. */
  lemma {:induction false} DecodeSplits(args: seq<string>)
    ensures Decoded(Joined(args)) == SplitAll(args)
    ensures Decoded(Encoded(args)) == SplitAll(args)
  {
    if args == [] {
      assert FindComma(" ") == 1;
    } else {
      DecodeSplits(args[1..]);
      DecodeStep(args[0], Joined(args[1..]));
    }
  }

  lemma {:induction false} SplitAllLength(args: seq<string>)
    ensures |SplitAll(args)| >= |args|
    ensures |SplitAll(args)| == |args| <==> forall i :: 0 <= i < |args| ==> ',' !in args[i]
    ensures |SplitAll(args)| == |args| ==> SplitAll(args) == args
  {
    if args != [] {
      SplitAllLength(args[1..]);
      assert forall i :: 1 <= i < |args| ==> args[i] == args[1..][i - 1];
      assert args == [args[0]] + args[1..];
    }
  }

  /** The round trip returns the arguments exactly when none of them contains a comma. */
  lemma RoundTripIff(args: seq<string>)
    ensures Decoded(Encoded(args)) == args <==> forall i :: 0 <= i < |args| ==> ',' !in args[i]
  {
    DecodeSplits(args);
    SplitAllLength(args);
  }

  // ---------------------------------------------------------------------
  // What is on the wire, and what becomes of other strings
  // ---------------------------------------------------------------------

  /** A list is sent as its arguments in order, each with a comma behind it; an empty list as one space. */
  lemma {:induction false} EncodedAppend(args: seq<string>, last: string)
    ensures Encoded([]) == " "
    ensures Encoded(args + [last]) == (if args == [] then "" else Encoded(args)) + last + ","
  {
    var longer := args + [last];
    if args == [] {
      assert longer == [last] && longer[1..] == [] && Joined([]) == "";
      assert Joined(longer) == last + "," + "";
      assert "" + last + "," == last + "," + "";
    } else {
      EncodedAppend(args[1..], last);
      var a, rest := args[0], Joined(args[1..]);
      assert longer[0] == a && longer[1..] == args[1..] + [last];
      assert Encoded(longer[1..]) == rest + last + ",";
      assert Joined(longer) == a + "," + (rest + last + ",");
      assert a + "," + (rest + last + ",") == a + "," + rest + last + ",";
    }
  }

  lemma JoinedCons(piece: string, others: seq<string>, rest: string)
    ensures Joined([piece] + others) + rest == piece + "," + (Joined(others) + rest)
  {
    var all := [piece] + others;
    assert all[0] == piece && all[1..] == others;
  }

  lemma {:induction false} PiecesHaveNoComma(wire: string, piece: string)
    requires piece in Decoded(wire)
    ensures ',' !in piece
    decreases |wire|
  {
    var pos := FindComma(wire);
    if piece != wire[..pos] {
      PiecesHaveNoComma(wire[pos + 1..], piece);
    }
  }

  /** Of any string received, encoded or not, every piece that ends with a comma is returned and nothing else: what is
      lost is what follows the last comma. */
  lemma {:induction false} DecodedReassembles(wire: string) returns (rest: string)
    ensures wire == Joined(Decoded(wire)) + rest && ',' !in rest
    decreases |wire|
  {
    var pos := FindComma(wire);
    if pos == |wire| {
      rest := wire;
    } else {
      var piece, others := wire[..pos], Decoded(wire[pos + 1..]);
      rest := DecodedReassembles(wire[pos + 1..]);
      JoinedCons(piece, others, rest);
      assert wire == piece + "," + wire[pos + 1..];
    }
  }
}
