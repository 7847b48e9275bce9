/** What one prompt generates when it is run alone: the sequential reference. */
module Reference {
  import opened Events

  /** The model's greedy decision after a prefix. */
  type Net = seq<Token> -> Token

  /** The first `k` decisions after `prompt`. */
  function Emitted(next: Net, prompt: seq<Token>, k: nat): (e: seq<Token>)
    ensures |e| == k
  {
    if k == 0 then []
    else
      var e := Emitted(next, prompt, k - 1);
      e + [next(prompt + e)]
  }

  function TokenAt(next: Net, prompt: seq<Token>, k: nat): Token {
    next(prompt + Emitted(next, prompt, k))
  }

  datatype Outcome = Outcome(tokens: seq<Token>, reason: FinishReason)

  /** The serial loop: decode, stop at eos, count, emit, stop at the limit. */
  function Sequential(next: Net, prompt: seq<Token>, maxNew: nat, k: nat): Outcome
    decreases maxNew - k
  {
    if IsEos(TokenAt(next, prompt, k)) then Outcome(Emitted(next, prompt, k), Stop)
    else if k + 1 >= maxNew then Outcome(Emitted(next, prompt, k + 1), Length)
    else Sequential(next, prompt, maxNew, k + 1)
  }

  /** A limit of 0 still lets one content token through. */
  function Limit(maxNew: nat): nat {
    if maxNew == 0 then 1 else maxNew
  }

  ghost predicate NoEosBefore(next: Net, prompt: seq<Token>, k: nat) {
    forall i: nat :: i < k ==> !IsEos(TokenAt(next, prompt, i))
  }

  /** The reference ends with Stop after the tokens before the first eos, if one comes
      within the limit, and with Length after exactly the limit otherwise. */
  lemma {:induction false} SequentialMeaning(next: Net, prompt: seq<Token>, maxNew: nat, k: nat)
    requires k < Limit(maxNew) && NoEosBefore(next, prompt, k)
    ensures
      var o := Sequential(next, prompt, maxNew, k);
      && o.tokens == Emitted(next, prompt, |o.tokens|) && NoEosBefore(next, prompt, |o.tokens|)
      && (o.reason == Stop ==> |o.tokens| < Limit(maxNew) && IsEos(TokenAt(next, prompt, |o.tokens|)))
      && (o.reason != Stop ==> o.reason == Length && |o.tokens| == Limit(maxNew))
    decreases maxNew - k
  {
    hide TokenAt;
    if !IsEos(TokenAt(next, prompt, k)) && k + 1 < maxNew {
      SequentialMeaning(next, prompt, maxNew, k + 1);
    }
  }

  lemma {:induction false} SequentialStops(next: Net, prompt: seq<Token>, maxNew: nat, k: nat, n: nat)
    requires k <= n < Limit(maxNew) && NoEosBefore(next, prompt, n) && IsEos(TokenAt(next, prompt, n))
    ensures Sequential(next, prompt, maxNew, k) == Outcome(Emitted(next, prompt, n), Stop)
    decreases n - k
  {
    hide TokenAt;
    if k < n {
      SequentialStops(next, prompt, maxNew, k + 1, n);
    }
  }

  lemma {:induction false} SequentialRunsOut(next: Net, prompt: seq<Token>, maxNew: nat, k: nat)
    requires k < Limit(maxNew) && NoEosBefore(next, prompt, Limit(maxNew))
    ensures Sequential(next, prompt, maxNew, k) == Outcome(Emitted(next, prompt, Limit(maxNew)), Length)
    decreases Limit(maxNew) - k
  {
    hide TokenAt;
    if k + 1 < maxNew {
      SequentialRunsOut(next, prompt, maxNew, k + 1);
    }
  }

  lemma {:induction false} EmittedPrefix(next: Net, prompt: seq<Token>, j: nat, k: nat)
    requires j <= k
    ensures Emitted(next, prompt, j) <= Emitted(next, prompt, k)
    decreases k - j
  {
    if j < k {
      EmittedPrefix(next, prompt, j, k - 1);
    }
  }
}
