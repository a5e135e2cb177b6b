/** Decomposition of the gateway's `methodArn`
    (`arn:aws:execute-api:{region}:{accountId}:{restApiId}/{stage}/{verb}/{path}`)
    into the account id and the options handed to the policy builder. */
module MethodArn {
  import opened Wrappers
  import opened Strings

  /** The `apiOptions` object: region, REST API id and stage. The stage is
      `undefined` when the sixth field has no `/`. */
  datatype ApiOptions = ApiOptions(region: string, restApiId: string, stage: Option<string>)

  /** What the handler reads out of `methodArn`. */
  datatype ArnContext = ArnContext(accountId: string, options: ApiOptions)

  /** The decomposition: split on `:`, read fields 3, 4 and 5, split field 5
      on `/` and read its pieces 0 and 1. `None` stands for the `TypeError`
      thrown when field 5 does not exist (fewer than six fields). */
  function Decompose(methodArn: string): (r: Option<ArnContext>)
    ensures r.Some? <==> Count(methodArn, ':') >= 5
    ensures r.Some? ==>
      && ':' !in r.value.accountId
      && ':' !in r.value.options.region
      && ':' !in r.value.options.restApiId
      && '/' !in r.value.options.restApiId
    ensures r.Some? && r.value.options.stage.Some? ==>
      ':' !in r.value.options.stage.value && '/' !in r.value.options.stage.value
  {
    var fields := Split(methodArn, ':');
    if |fields| < 6 then None
    else
      var api := Split(fields[5], '/');
      SplitPiecesSeparatorFree(methodArn, ':');
      SplitPiecesSeparatorFree(fields[5], '/');
      PiecesAvoid(fields[5], '/', ':');
      Some(ArnContext(fields[4], ApiOptions(fields[3], api[0], if |api| >= 2 then Some(api[1]) else None)))
  }

  /** The ARN the gateway passes for a call of `{verb}/{path}` (here `rest`)
      on stage `stage` of API `restApiId`. */
  function GatewayArn(region: string, accountId: string, restApiId: string, stage: string, rest: string): (arn: string)
  {
    "arn:aws:execute-api:" + region + ":" + accountId + ":" + restApiId + "/" + stage + "/" + rest
  }

  /** Joining five fields with `:`. */
  lemma JoinFive(f0: string, f1: string, f2: string, f3: string, f4: string)
    ensures Join([f0, f1, f2, f3, f4], ':') == f0 + ":" + f1 + ":" + f2 + ":" + f3 + ":" + f4
  {
    var five := [f0, f1, f2, f3, f4];
    assert Join(five[3..], ':') == f3 + ":" + f4 by {
      assert five[3..][1..] == five[4..];
    }
    assert Join(five[2..], ':') == f2 + ":" + f3 + ":" + f4 by {
      assert five[2..][1..] == five[3..];
    }
    assert Join(five[1..], ':') == f1 + ":" + f2 + ":" + f3 + ":" + f4 by {
      assert five[1..][1..] == five[2..];
    }
  }

  /** Round trip for any three leading fields: the decomposition never looks
      at fields 0 to 2, so the partition and service names do not matter. */
  lemma DecomposeAnyPrefix(f0: string, f1: string, f2: string,
                           region: string, accountId: string, restApiId: string, stage: string, rest: string)
    requires ':' !in f0 && ':' !in f1 && ':' !in f2
    requires ':' !in region && ':' !in accountId
    requires ':' !in restApiId && '/' !in restApiId
    requires ':' !in stage && '/' !in stage
    ensures Decompose(f0 + ":" + f1 + ":" + f2 + ":" + region + ":" + accountId + ":" + restApiId + "/" + stage + "/" + rest)
         == Some(ArnContext(accountId, ApiOptions(region, restApiId, Some(stage))))
  {
    var five := [f0, f1, f2, region, accountId];
    var head := restApiId + "/" + stage + "/";
    var q := head + rest;
    var arn := f0 + ":" + f1 + ":" + f2 + ":" + region + ":" + accountId + ":" + restApiId + "/" + stage + "/" + rest;
    var fields := five + Split(q, ':');
    assert Split(arn, ':') == fields by {
      JoinFive(f0, f1, f2, region, accountId);
      assert arn == Join(five, ':') + ":" + q;
      LeadingPieces(five, q, ':');
    }
    var r0 := Split(rest, ':')[0];
    assert fields[5] == restApiId + ['/'] + (stage + ['/'] + r0) by {
      SplitSeparatorFreePrefix(head, rest, ':');
    }
    assert Split(fields[5], '/')[..2] == [restApiId, stage] by {
      SplitAtSeparator(restApiId, stage + ['/'] + r0, '/');
      SplitAtSeparator(stage, r0, '/');
      SplitNoSeparator(restApiId, '/');
      SplitNoSeparator(stage, '/');
    }
  }

  /** Round trip: decomposing the gateway's ARN recovers exactly the region,
      account id, API id and stage it was built from, whatever the verb and
      path after the stage. */
  lemma DecomposeGatewayArn(region: string, accountId: string, restApiId: string, stage: string, rest: string)
    requires ':' !in region && ':' !in accountId
    requires ':' !in restApiId && '/' !in restApiId
    requires ':' !in stage && '/' !in stage
    ensures Decompose(GatewayArn(region, accountId, restApiId, stage, rest))
         == Some(ArnContext(accountId, ApiOptions(region, restApiId, Some(stage))))
  {
    assert GatewayArn(region, accountId, restApiId, stage, rest)
        == "arn" + ":" + "aws" + ":" + "execute-api" + ":" + region + ":" + accountId + ":" + restApiId + "/" + stage + "/" + rest;
    DecomposeAnyPrefix("arn", "aws", "execute-api", region, accountId, restApiId, stage, rest);
  }

  /** The six-field instance of `DecomposeFieldWithoutSlash`: an ARN ending
      in an API id without `/` decomposes with the stage absent. */
  lemma DecomposeWithoutStage(f0: string, f1: string, f2: string,
                              region: string, accountId: string, restApiId: string)
    requires ':' !in f0 && ':' !in f1 && ':' !in f2
    requires ':' !in region && ':' !in accountId
    requires ':' !in restApiId && '/' !in restApiId
    ensures Decompose(f0 + ":" + f1 + ":" + f2 + ":" + region + ":" + accountId + ":" + restApiId)
         == Some(ArnContext(accountId, ApiOptions(region, restApiId, None)))
  {
    var five := [f0, f1, f2, region, accountId];
    var arn := f0 + ":" + f1 + ":" + f2 + ":" + region + ":" + accountId + ":" + restApiId;
    assert Split(arn, ':') == five + [restApiId] by {
      JoinFive(f0, f1, f2, region, accountId);
      assert arn == Join(five, ':') + ":" + restApiId;
      LeadingPieces(five, restApiId, ':');
      SplitNoSeparator(restApiId, ':');
    }
    SplitNoSeparator(restApiId, '/');
  }

  /** Whenever field 5 has no `/`, the decomposition still succeeds: the
      whole field is the API id and the stage is absent (`undefined`). */
  lemma DecomposeFieldWithoutSlash(arn: string)
    requires Count(arn, ':') >= 5
    requires '/' !in Split(arn, ':')[5]
    ensures Decompose(arn).Some?
    ensures Decompose(arn).value.options.restApiId == Split(arn, ':')[5]
    ensures Decompose(arn).value.options.stage.None?
  {
    SplitNoSeparator(Split(arn, ':')[5], '/');
  }
}
