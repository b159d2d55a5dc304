/**
 * The token source behind IDataverseAuthService.GetTokenAsync, seen from outside: each call
 * gives a token or an exception. How the token is obtained is not part of this model.
 */
module Auth {
  import opened Wrappers
  import opened Exceptions

  class TokenSource {
    /** How many tokens have been asked for. */
    var calls: nat
    /** The answer to the n-th call. */
    const answer: nat -> Result<string, Exception>

    constructor (answer: nat -> Result<string, Exception>)
      ensures calls == 0 && this.answer == answer
    {
      calls := 0;
      this.answer := answer;
    }

    method GetToken() returns (token: Result<string, Exception>)
      modifies this`calls
      ensures calls == old(calls) + 1
      ensures token == answer(old(calls))
    {
      token := answer(calls);
      calls := calls + 1;
    }
  }
}
