// Validation in terms of the single fields.

module DomainLaws {
  import opened Domain

  predicate TokenText(v: MetaValue) {
    v.Text? && OpaqueToken(v.text)
  }

  predicate TokenList(v: MetaValue) {
    v.Items? && |v.items| <= 8 && forall x | x in v.items :: TokenText(x)
  }

  // The bound on the number of entries never refuses what the keys allow.
  lemma KeysBoundSize(m: Metadata, allowedKeys: set<string>)
    ensures FieldSpecificMetadata(m, allowedKeys) <==>
      forall k | k in m ::
        && k in allowedKeys
        && (k == "status" ==> m[k] in {Text("ok"), Text("recorded"), Text("verified"), Text("failed")})
        && (k == "steps" ==> TokenList(m[k]))
        && (k != "status" && k != "steps" ==> TokenText(m[k]))
  {
    if forall k | k in m :: k in allowedKeys {
      assert m.Keys <= allowedKeys;
      CardinalitySubset(m.Keys, allowedKeys);
    }
    forall k | k in m ensures FieldAllowed(k, m[k]) <==>
      && (k == "status" ==> m[k] in {Text("ok"), Text("recorded"), Text("verified"), Text("failed")})
      && (k == "steps" ==> TokenList(m[k]))
      && (k != "status" && k != "steps" ==> TokenText(m[k]))
    {
      FieldByKind(k, m[k]);
    }
    hide FieldAllowed, TokenList, TokenText;
  }

  lemma FieldByKind(k: string, v: MetaValue)
    ensures FieldAllowed(k, v) <==>
      && (k == "status" ==> v in {Text("ok"), Text("recorded"), Text("verified"), Text("failed")})
      && (k == "steps" ==> TokenList(v))
      && (k != "status" && k != "steps" ==> TokenText(v))
  {
    hide OpaqueToken;
    assert "status" != "steps" by { assert |"status"| != |"steps"|; }
    if k == "steps" && v.Items? {
      TokensByIndex(v.items);
    }
  }

  lemma TokensByIndex(items: seq<MetaValue>)
    ensures (forall i | 0 <= i < |items| :: OpaqueText(items[i])) <==> (forall x | x in items :: TokenText(x))
  {
    hide OpaqueToken;
    if forall i | 0 <= i < |items| :: OpaqueText(items[i]) {
      forall x | x in items ensures TokenText(x) {
        var i :| 0 <= i < |items| && items[i] == x;
      }
    }
    if forall x | x in items :: TokenText(x) {
      forall i | 0 <= i < |items| ensures OpaqueText(items[i]) {
        assert items[i] in items;
      }
    }
  }

  lemma ValidEvidenceMeans(e: Evidence)
    ensures ValidEvidence(e) <==>
      && OpaqueToken(e.evidenceId) && OpaqueToken(e.taskId) && OpaqueToken(e.checkId) && OpaqueToken(e.actorId)
      && (e.kind == "check_result" || e.kind == "progress" || e.kind == "verification")
      && FieldSpecificMetadata(e.reference, {"artifact_id", "cycle_key", "failure_code", "status", "summary_ref",
                                             "verification_run_ref"})
  {
  }

  lemma ValidIntentMeans(i: Intent)
    ensures ValidIntent(i) <==>
      && (exists k :: 0 <= k < |i.taskId| && !IsSpace(i.taskId[k]))
      && (exists k :: 0 <= k < |i.cycleKey| && !IsSpace(i.cycleKey[k]))
      && (exists k :: 0 <= k < |i.actorId| && !IsSpace(i.actorId[k]))
      && i.expectedVersion >= 0
      && FieldSpecificMetadata(i.payload, {"failure_code", "status", "steps", "summary_ref", "verification_run_id"})
  {
  }

  lemma BatonMeans(m: Metadata)
    ensures BatonMetadataOnly(m) <==> FieldSpecificMetadata(m, {"last_cycle_key", "next_step", "steps"})
  {
  }

  // A token is one of these characters first, and at most 127 of these after it.
  lemma OpaqueTokenMeans(s: string)
    ensures OpaqueToken(s) <==>
      && 1 <= |s| <= 128 && s[0] != '.' && s[0] != '_' && s[0] != '-'
      && forall c | c in s :: ('A' <= c <= 'Z' || 'a' <= c <= 'z' || '0' <= c <= '9' || c == '.' || c == '_' || c == '-')
  {
    if OpaqueToken(s) {
      forall c | c in s ensures 'A' <= c <= 'Z' || 'a' <= c <= 'z' || '0' <= c <= '9' || c == '.' || c == '_' || c == '-' {
        var i :| 0 <= i < |s| && s[i] == c;
      }
    } else if 1 <= |s| <= 128 && TokenHead(s[0]) {
      var i :| 1 <= i < |s| && !TokenTail(s[i]);
      assert s[i] in s;
    } else if 1 <= |s| {
      assert s[0] in s;
    }
  }

  lemma TaskFieldsMean(taskId: string, title: string, checks: seq<string>)
    ensures ValidTaskFields(taskId, title, checks) <==>
      && (exists k :: 0 <= k < |taskId| && !IsSpace(taskId[k])) && (exists k :: 0 <= k < |title| && !IsSpace(title[k]))
      && |checks| >= 1
      && (forall c | c in checks :: exists k :: 0 <= k < |c| && !IsSpace(c[k]))
      && (forall i, j | 0 <= i < j < |checks| :: checks[i] != checks[j])
  {
    if forall i | 0 <= i < |checks| :: !Blank(checks[i]) {
      forall c | c in checks ensures exists k :: 0 <= k < |c| && !IsSpace(c[k]) {
        var i :| 0 <= i < |checks| && checks[i] == c;
        assert !Blank(c);
      }
    }
  }
}
