/** Pairing tokens over runs: issuing one withdraws the server's earlier ones. */
module AgentTokens {
  import opened Wrappers
  import opened AgentTables

  /** The new token is as issued, the unused ones of its server are revoked, and all others stay as they are. */
  lemma {:induction false} IssuedExactly(t: Tables, hash: string, token: Token, other: string)
    requires other in t.tokens && other != hash
    ensures var tokens := IssueEffect(t, hash, token).tokens;
            && tokens.Keys == t.tokens.Keys + {hash} && tokens[hash] == token
            && tokens[other].revoked == (t.tokens[other].revoked
                                         || (t.tokens[other].server == token.server && !t.tokens[other].used))
            && tokens[other] == t.tokens[other].(revoked := tokens[other].revoked)
    ensures IssueEffect(t, hash, token).agents == t.agents && IssueEffect(t, hash, token).servers == t.servers
  {
  }

  predicate Open(token: Token) {
    !token.used && !token.revoked
  }

  /** A server has at most one token that is neither used nor revoked. */
  ghost predicate OneOpen(t: Tables) {
    forall h, h' :: h in t.tokens && h' in t.tokens && Open(t.tokens[h]) && Open(t.tokens[h']) ==>
      t.tokens[h].server == t.tokens[h'].server ==> h == h'
  }

  lemma {:induction false} IssueKeepsOneOpen(t: Tables, hash: string, token: Token)
    requires OneOpen(t)
    ensures OneOpen(IssueEffect(t, hash, token))
  {
  }

  /** No token is opened again. */
  ghost predicate OpensNone(t: Tables, t': Tables) {
    forall h :: h in t'.tokens && Open(t'.tokens[h]) ==>
      h in t.tokens && Open(t.tokens[h]) && t.tokens[h].server == t'.tokens[h].server
  }

  lemma {:induction false} OpensNoneKeepsOneOpen(t: Tables, t': Tables)
    requires OneOpen(t) && OpensNone(t, t')
    ensures OneOpen(t')
  {
  }

  lemma {:induction false} OtherStepsOpenNone(s: State, step: Step)
    requires Enabled(s, step) && !step.IssueToken?
    ensures OpensNone(s.tables, Apply(s, step).tables)
  {
    hide Fold, Authorises, Conflicts, Holds;
  }

  /** In every state of every run a server has at most one token that is neither used nor revoked. */
  lemma {:induction false} OneOpenToken(states: seq<State>, steps: seq<Step>, i: nat)
    requires Run(states, steps) && i < |states|
    ensures OneOpen(states[i].tables)
  {
    if i > 0 {
      OneOpenToken(states, steps, i - 1);
      var s, step := states[i - 1], steps[i - 1];
      assert Enabled(s, step);
      hide OneOpen;
      if step.IssueToken? {
        IssueKeepsOneOpen(s.tables, step.hash, step.token);
      } else {
        OtherStepsOpenNone(s, step);
        OpensNoneKeepsOneOpen(s.tables, states[i].tables);
      }
    }
  }
}
