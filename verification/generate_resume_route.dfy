/** The `POST /api/generate-resume` handler: it refuses to run without an
    API key, sends the résumé to the text generator, strips Markdown code
    fences from the reply, parses it as JSON, and falls back to the request
    data when that parse fails. The generator and `JSON.parse` are
    parameters; reading the request body is an `Option` (None when
    `request.json()` throws). */
module GenerateResumeRoute {
  import opened Wrappers
  import opened JsStrings

  const OpeningFence: string := "```json"
  const Fence: string := "```"

  /** `s.replace(new RegExp(token + "\\n?", "g"), "")`: scanning left to
      right, every occurrence of `token` is deleted together with one line
      feed right after it, if there is one. Matches do not overlap and the
      text left behind is not scanned again. */
  function StripToken(s: string, token: string): (r: string)
    requires |token| > 0
    ensures |r| <= |s|
    ensures token[0] !in s ==> r == s
    decreases |s|
  {
    if |s| < |token| then s
    else if s[..|token|] == token then
      var rest := s[|token|..];
      StripToken(if |rest| > 0 && rest[0] == '\n' then rest[1..] else rest, token)
    else [s[0]] + StripToken(s[1..], token)
  }

  /** `text.replace(/```json\n?/g, "").replace(/```\n?/g, "").trim()`. */
  function CleanText(text: string): (r: string)
    ensures |r| <= |text|
  {
    Trim(StripToken(StripToken(text, OpeningFence), Fence))
  }

  /** A code fence "```" starts at position `i` of `s`. */
  predicate FenceAt(s: string, i: int)
    requires 0 <= i < |s| - 2
  {
    s[i] == '`' && s[i + 1] == '`' && s[i + 2] == '`'
  }

  /** No three backticks in a row anywhere in `s`. */
  predicate FenceFree(s: string) {
    forall i :: 0 <= i < |s| - 2 ==> !FenceAt(s, i)
  }

  /** A reply with no backtick at all is only trimmed. */
  lemma NoBacktickOnlyTrimmed(text: string)
    requires '`' !in text
    ensures CleanText(text) == Trim(text)
  {
    assert OpeningFence[0] == '`' && Fence[0] == '`';
  }

  /** A text free of the token's first character passes through unchanged
      in front of whatever follows it. */
  lemma {:induction false} StripTokenAfterPlainPrefix(b: string, x: string, token: string)
    requires |token| > 0 && token[0] !in b
    ensures StripToken(b + x, token) == b + StripToken(x, token)
    decreases |b|
  {
    if |b| > 0 {
      var s := b + x;
      if |s| < |token| {
        assert StripToken(x, token) == x;
      } else {
        assert s[..|token|][0] == b[0];
        assert s[1..] == b[1..] + x;
        StripTokenAfterPlainPrefix(b[1..], x, token);
        assert b == [b[0]] + b[1..];
      }
    } else {
      assert b + x == x;
    }
  }

  /** The reply the generator is told not to send but often does: a JSON
      body inside a "```json" fence. Cleaning recovers the body, trimmed. */
  lemma FencedCleansToBody(body: string)
    requires '`' !in body
    ensures CleanText("```json\n" + body + "\n```") == Trim(body)
  {
    var text := "```json\n" + body + "\n```";
    assert text[..7] == OpeningFence;
    assert text[7..][1..] == body + "\n```";
    StripTokenAfterPlainPrefix(body, "\n```", OpeningFence);
    assert StripToken("\n```", OpeningFence) == "\n```" by {
      assert "\n```"[1..] == "```";
    }
    var once := StripToken(text, OpeningFence);
    assert once == body + "\n```";
    StripTokenAfterPlainPrefix(body, "\n```", Fence);
    assert StripToken("\n```", Fence) == "\n" by {
      assert "\n```"[1..] == "```";
      assert "```"[..3] == Fence;
      assert "```"[3..] == "";
    }
    TrimIgnoresTrailingNewline(body);
  }

  /** A first character other than the token's first is kept. */
  lemma StripTokenKeepsFirst(t: string, token: string)
    requires |token| > 0 && |t| > 0 && t[0] != token[0]
    ensures |StripToken(t, token)| > 0 && StripToken(t, token)[0] == t[0]
  {
    if |t| >= |token| {
      assert t[..|token|][0] == t[0];
    }
  }

  predicate StartsWithTwoBackticks(s: string) {
    |s| >= 2 && s[0] == '`' && s[1] == '`'
  }

  /** Removing fences never manufactures two leading backticks. */
  lemma StripFenceKeepsStart(t: string)
    requires !StartsWithTwoBackticks(t)
    ensures !StartsWithTwoBackticks(StripToken(t, Fence))
  {
    if |t| > 0 && t[0] == '`' {
      if |t| >= 3 {
        assert t[..3] != Fence;
      }
      if |t| > 1 {
        StripTokenKeepsFirst(t[1..], Fence);
      }
    } else if |t| > 0 {
      StripTokenKeepsFirst(t, Fence);
    }
  }

  /** After the second replacement no code fence survives, whatever the
      generator sent: each run of backticks loses all its complete triples,
      and a shorter remainder is never joined to another one. */
  lemma {:induction false} StripFenceLeavesNoFence(s: string)
    ensures FenceFree(StripToken(s, Fence))
    decreases |s|
  {
    if |s| < 3 {
    } else if s[..3] == Fence {
      var rest := s[3..];
      StripFenceLeavesNoFence(if |rest| > 0 && rest[0] == '\n' then rest[1..] else rest);
    } else {
      var tail := StripToken(s[1..], Fence);
      StripFenceLeavesNoFence(s[1..]);
      if s[0] == '`' {
        assert !StartsWithTwoBackticks(s[1..]) by {
          assert s[..3] == [s[0], s[1], s[2]];
        }
        StripFenceKeepsStart(s[1..]);
      }
      var r := [s[0]] + tail;
      forall i | 0 <= i < |r| - 2
        ensures !FenceAt(r, i)
      {
        if i > 0 {
          assert r[i] == tail[i - 1] && r[i + 1] == tail[i] && r[i + 2] == tail[i + 1];
          assert !FenceAt(tail, i - 1);
        }
      }
    }
  }

  lemma SliceFenceFree(s: string, lo: int, hi: int)
    requires 0 <= lo <= hi <= |s| && FenceFree(s)
    ensures FenceFree(s[lo..hi])
  {
    var t := s[lo..hi];
    forall i | 0 <= i < |t| - 2
      ensures !FenceAt(t, i)
    {
      assert t[i] == s[lo + i] && t[i + 1] == s[lo + i + 1] && t[i + 2] == s[lo + i + 2];
      assert !FenceAt(s, lo + i);
    }
  }

  /** The text handed to `JSON.parse` never contains "```". */
  lemma CleanTextFenceFree(text: string)
    ensures FenceFree(CleanText(text))
  {
    var s := StripToken(StripToken(text, OpeningFence), Fence);
    StripFenceLeavesNoFence(StripToken(text, OpeningFence));
    assert FenceFree(s);
    TrimFenceFree(s);
  }

  lemma TrimFenceFree(s: string)
    requires FenceFree(s)
    ensures FenceFree(Trim(s))
  {
    var t := TrimStart(s);
    SliceFenceFree(s, |s| - |t|, |s|);
    assert s[|s| - |t|..|s|] == t;
    SliceFenceFree(t, 0, |TrimEnd(t)|);
  }

  /** `!process.env.GOOGLE_GENERATIVE_AI_API_KEY`: unset or empty. */
  predicate KeyConfigured(apiKey: Option<string>) {
    apiKey.Some? && apiKey.value != ""
  }

  const KeyMissingMessage: string := "Google AI API key not configured"
  const FailureMessage: string := "Failed to generate resume"

  /** The JSON answer: `{resume: ...}` or `{error: ...}`. */
  datatype Body<T> = ResumeBody(resume: T) | ErrorBody(error: string)

  datatype Response<T> = Response(status: int, body: Body<T>)

  /** The handler. `body` is the parsed request (None when reading it
      throws), `generate` the model call (None when it throws) and `parse`
      is `JSON.parse` (None when it throws). */
  method Post<T>(apiKey: Option<string>, body: Option<T>,
                 generate: T -> Option<string>, parse: string -> Option<T>)
    returns (resp: Response<T>)
    ensures !KeyConfigured(apiKey) ==> resp == Response(500, ErrorBody(KeyMissingMessage))
    ensures KeyConfigured(apiKey) && (body.None? || generate(body.value).None?) ==>
      resp == Response(500, ErrorBody(FailureMessage))
    ensures resp.status == 200 <==> KeyConfigured(apiKey) && body.Some? && generate(body.value).Some?
    ensures resp.status == 200 ==> resp.body.ResumeBody?
    ensures resp.status == 200 && parse(CleanText(generate(body.value).value)).Some? ==>
      resp.body.resume == parse(CleanText(generate(body.value).value)).value
    ensures resp.status == 200 && parse(CleanText(generate(body.value).value)).None? ==>
      resp.body.resume == body.value
  {
    if !KeyConfigured(apiKey) {
      return Response(500, ErrorBody(KeyMissingMessage));
    }
    if body.None? {
      return Response(500, ErrorBody(FailureMessage));
    }
    var cvData := body.value;
    var reply := generate(cvData);
    if reply.None? {
      return Response(500, ErrorBody(FailureMessage));
    }
    var enhancedData: T;
    var parsed := parse(CleanText(reply.value));
    if parsed.Some? {
      enhancedData := parsed.value;
    } else {
      enhancedData := cvData;
    }
    resp := Response(200, ResumeBody(enhancedData));
  }
}
