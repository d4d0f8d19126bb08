/** The output both printers append to. */
module TokenSink {
  import opened Surface

  class Sink {
    var out: seq<Token>

    constructor ()
      ensures out == []
    {
      out := [];
    }

    method Write(t: Token)
      modifies this
      ensures out == old(out) + [t]
    {
      out := out + [t];
    }

    method OpenIf(wrap: bool)
      modifies this
      ensures out == Opened(old(out), wrap)
    {
      if wrap {
        Write(Open);
      }
    }

    method CloseIf(wrap: bool)
      modifies this
      ensures out == Closed(old(out), wrap)
    {
      if wrap {
        Write(Close);
      }
    }
  }

  function Bracketed(wrap: bool, ts: seq<Token>): seq<Token> {
    if wrap then [Open] + ts + [Close] else ts
  }

  function Opened(out: seq<Token>, wrap: bool): seq<Token> {
    if wrap then out + [Open] else out
  }

  function Closed(out: seq<Token>, wrap: bool): seq<Token> {
    if wrap then out + [Close] else out
  }

  lemma WrittenTwo(out: seq<Token>, wrap: bool, a: seq<Token>, b: seq<Token>)
    ensures Closed(Opened(out, wrap) + a + b, wrap) == out + Bracketed(wrap, a + b)
  {
  }

  lemma Written(out: seq<Token>, wrap: bool, a: seq<Token>, b: seq<Token>, c: seq<Token>)
    ensures Closed(Opened(out, wrap) + a + b + c, wrap) == out + Bracketed(wrap, a + b + c)
  {
  }

  lemma WrittenFive(out: seq<Token>, wrap: bool, a: seq<Token>, b: seq<Token>, c: seq<Token>, d: seq<Token>,
                    e: seq<Token>)
    ensures Closed(Opened(out, wrap) + a + b + c + d + e, wrap) == out + Bracketed(wrap, a + b + c + d + e)
  {
    assert Opened(out, wrap) + a + b + c + d + e == Opened(out, wrap) + (a + b + c + d) + e;
    assert Opened(out, wrap) + a + b + c + d == Opened(out, wrap) + (a + b + c + d);
    WrittenTwo(out, wrap, a + b + c + d, e);
  }
}
