/**
 * The single-use CSRF tokens of includes/functions.php: `$_SESSION['csrf_tokens']` maps a
 * form name to the tokens issued for it and the time each was issued. A token is good for
 * one validation of its own form.
 */
module Csrf {
  import opened Php

  type Tokens = map<string, map<string, int>>

  predicate IsHexDigit(c: char)
  {
    '0' <= c <= '9' || 'a' <= c <= 'f'
  }

  /** What bin2hex(random_bytes(16)) yields: 32 lower-case hexadecimal digits. */
  predicate IsToken(token: string)
  {
    |token| == 32 && forall i :: 0 <= i < |token| ==> IsHexDigit(token[i])
  }

  /** generate_csrf_token(): the form's token map, created when absent, gains the token. */
  function Issue(tokens: Tokens, form: string, token: string, now: int): (r: Tokens)
    ensures form in r && token in r[form] && r[form][token] == now
    ensures r.Keys == tokens.Keys + {form}
    ensures forall f :: f in tokens && f != form ==> r[f] == tokens[f]
    ensures form in tokens ==> forall t :: t in tokens[form] && t != token ==> t in r[form] && r[form][t] == tokens[form][t]
  {
    var issued := if form in tokens then tokens[form] else map[];
    tokens[form := issued[token := now]]
  }

  /** The test validate_csrf_token() passes: a truthy token stored under the form. */
  predicate Accepts(tokens: Tokens, form: string, token: Option<string>)
  {
    !Falsy(token) && form in tokens && token.value in tokens[form]
  }

  /** The unset() calls of a successful validation: the token goes, then the form if it has none left. */
  function Consume(tokens: Tokens, form: string, token: string): (r: Tokens)
    requires form in tokens
    ensures form in r ==> token !in r[form]
    ensures form in r ==> r[form].Keys == tokens[form].Keys - {token}
    ensures form !in r <==> tokens[form].Keys <= {token}
    ensures forall f :: f != form ==> (f in r <==> f in tokens) && (f in r ==> r[f] == tokens[f])
  {
    var left := tokens[form] - {token};
    assert left.Keys == tokens[form].Keys - {token};
    assert left == map[] <==> left.Keys == {};
    if left == map[] then tokens - {form} else tokens[form := left]
  }

  /** No form is kept with an empty token map. */
  predicate NoEmptyForms(tokens: Tokens)
  {
    forall f :: f in tokens ==> tokens[f] != map[]
  }

  /** An issued token is accepted by its form. */
  lemma IssuedIsAccepted(tokens: Tokens, form: string, token: string, now: int)
    requires IsToken(token)
    ensures Accepts(Issue(tokens, form, token, now), form, Some(token))
  {
    assert token[0] != '0' || token[1..] != [];
  }

  /** A token validates once: after it is consumed the same form refuses it. */
  lemma SingleUse(tokens: Tokens, form: string, token: string)
    requires Accepts(tokens, form, Some(token))
    ensures !Accepts(Consume(tokens, form, token), form, Some(token))
  {
  }

  /** Consuming a token leaves every other token of every form valid. */
  lemma ConsumeKeepsOthers(tokens: Tokens, form: string, token: string, f: string, t: string)
    requires Accepts(tokens, form, Some(token)) && Accepts(tokens, f, Some(t))
    requires f != form || t != token
    ensures Accepts(Consume(tokens, form, token), f, Some(t))
  {
    if f == form {
      assert t in tokens[form].Keys - {token};
    }
  }

  /** A token is only ever accepted by the form it was issued for: issuing to one form never opens another. */
  lemma IssueOpensOnlyItsForm(tokens: Tokens, form: string, token: string, now: int, f: string, t: Option<string>)
    requires Accepts(Issue(tokens, form, token, now), f, t)
    ensures Accepts(tokens, f, t) || (f == form && t == Some(token))
  {
  }

  lemma IssueKeepsNoEmptyForms(tokens: Tokens, form: string, token: string, now: int)
    requires NoEmptyForms(tokens)
    ensures NoEmptyForms(Issue(tokens, form, token, now))
  {
    var r := Issue(tokens, form, token, now);
    forall f | f in r
      ensures r[f] != map[]
    {
      if f == form {
        assert token in r[f];
      }
    }
  }

  lemma ConsumeKeepsNoEmptyForms(tokens: Tokens, form: string, token: string)
    requires NoEmptyForms(tokens) && form in tokens
    ensures NoEmptyForms(Consume(tokens, form, token))
  {
  }

  /** `$_SESSION['csrf_tokens']`, changed in place by generate_csrf_token() and validate_csrf_token(). */
  class TokenStore {
    var tokens: Tokens

    constructor ()
      ensures tokens == map[]
    {
      tokens := map[];
    }

    /** generate_csrf_token($form), given the random token and the clock. */
    method Generate(form: string, random: string, now: int) returns (token: string)
      requires IsToken(random)
      modifies this
      ensures token == random
      ensures tokens == Issue(old(tokens), form, random, now)
      ensures Accepts(tokens, form, Some(token))
    {
      IssuedIsAccepted(tokens, form, random, now);
      if form !in tokens {
        tokens := tokens[form := map[]];
      }
      tokens := tokens[form := tokens[form][random := now]];
      token := random;
    }

    /** validate_csrf_token($form, $token). */
    method Validate(form: string, token: Option<string>) returns (valid: bool)
      modifies this
      ensures valid == Accepts(old(tokens), form, token)
      ensures valid ==> tokens == Consume(old(tokens), form, token.value)
      ensures !valid ==> tokens == old(tokens)
      ensures Falsy(token) ==> !valid
    {
      if Falsy(token) || form !in tokens || token.value !in tokens[form] {
        return false;
      }
      tokens := tokens[form := tokens[form] - {token.value}];
      if tokens[form] == map[] {
        tokens := tokens - {form};
      }
      valid := true;
    }
  }
}
