/**
  Which names of the release documents the secret-like pattern matches: the flag
  accepts_private_keys and no other.
 */
module SecretNames {
  import opened Texts
  import opened DeploymentProfiles
  import opened ReleaseNames
  import AuditKeys

  lemma Literals0a()
    ensures AuditKeys.Quiet("ref", 0)
    ensures AuditKeys.Quiet("abi", 0)
    ensures AuditKeys.Quiet("file", 0)
    ensures AuditKeys.Quiet("name", 0)
    ensures AuditKeys.Quiet("kind", 0)
    ensures AuditKeys.Quiet("type", 0)
    ensures AuditKeys.Quiet("order", 0)
    ensures AuditKeys.Quiet("status", 0)
  {
  }

  lemma Literals0b()
    ensures AuditKeys.Quiet("safety", 0)
    ensures AuditKeys.Quiet("commit", 0)
    ensures AuditKeys.Quiet("rpc_url", 0)
    ensures AuditKeys.Quiet("network", 0)
    ensures AuditKeys.Quiet("receipts", 0)
  {
  }

  lemma Literals0c()
    ensures AuditKeys.Quiet("contract", 0)
  {
  }

  lemma Quiet0(k: Name)
    requires Mark0(k) != 0 && !k.AcceptsPrivateKeys?
    ensures AuditKeys.Quiet(Written0(k), 0)
  {
    hide AuditKeys.Quiet;
    Literals0a();
    Literals0b();
    Literals0c();
  }

  lemma Literals1a()
    ensures AuditKeys.Quiet("blockers", 0)
    ensures AuditKeys.Quiet("requests", 0)
    ensures AuditKeys.Quiet("observer", 0)
    ensures AuditKeys.Quiet("fixtures", 0)
  {
  }

  lemma Literals1b()
    ensures AuditKeys.Quiet("provenance", 0)
    ensures AuditKeys.Quiet("block_hash", 0)
    ensures AuditKeys.Quiet("script_len", 0)
  {
  }

  lemma Literals1c()
    ensures AuditKeys.Quiet("network_id", 0)
    ensures AuditKeys.Quiet("deployed_at", 0)
    ensures AuditKeys.Quiet("observed_at", 0)
  {
  }

  lemma Literals1d()
    ensures AuditKeys.Quiet("source_file", 0)
    ensures AuditKeys.Quiet("state_layout", 0)
  {
  }

  lemma Literals1e()
    ensures AuditKeys.Quiet("safety_scope", 0)
    ensures AuditKeys.Quiet("silverscript", 0)
  {
  }

  lemma Quiet1(k: Name)
    requires Mark1(k) != 0 && !k.AcceptsPrivateKeys?
    ensures AuditKeys.Quiet(Written1(k), 0)
  {
    hide AuditKeys.Quiet;
    Literals1a();
    Literals1b();
    Literals1c();
    Literals1d();
    Literals1e();
  }

  lemma Literals2a()
    ensures AuditKeys.Quiet("deploy_tx_id", 0)
    ensures AuditKeys.Quiet("explorer_url", 0)
  {
  }

  lemma Literals2b()
    ensures AuditKeys.Quiet("request_type", 0)
    ensures AuditKeys.Quiet("observations", 0)
  {
  }

  lemma Literals2c()
    ensures AuditKeys.Quiet("receipt_count", 0)
    ensures AuditKeys.Quiet("evidence_type", 0)
  {
    assert AuditKeys.Quiet("receipt_count", 9);
    assert AuditKeys.Quiet("evidence_type", 9);
  }

  lemma Literals2d()
    ensures AuditKeys.Quiet("contract_name", 0)
    ensures AuditKeys.Quiet("confirmations", 0)
  {
    assert AuditKeys.Quiet("contract_name", 9);
    assert AuditKeys.Quiet("confirmations", 9);
  }

  lemma Literals2e()
    ensures AuditKeys.Quiet("request_count", 0)
    ensures AuditKeys.Quiet("script_sha256", 0)
  {
    assert AuditKeys.Quiet("request_count", 9);
    assert AuditKeys.Quiet("script_sha256", 9);
  }

  lemma Literals2f()
    ensures AuditKeys.Quiet("artifact_file", 0)
    ensures AuditKeys.Quiet("source_sha256", 0)
  {
    assert AuditKeys.Quiet("artifact_file", 9);
    assert AuditKeys.Quiet("source_sha256", 9);
  }

  lemma Literals2g()
    ensures AuditKeys.Quiet("fixture_count", 0)
    ensures AuditKeys.Quiet("schema_version", 0)
  {
    assert AuditKeys.Quiet("fixture_count", 9);
    assert AuditKeys.Quiet("schema_version", 9);
  }

  lemma Quiet2(k: Name)
    requires Mark2(k) != 0 && !k.AcceptsPrivateKeys?
    ensures AuditKeys.Quiet(Written2(k), 0)
  {
    hide AuditKeys.Quiet;
    Literals2a();
    Literals2b();
    Literals2c();
    Literals2d();
    Literals2e();
    Literals2f();
    Literals2g();
  }

  lemma Literals3a()
    ensures AuditKeys.Quiet("release_bundle", 0)
    ensures AuditKeys.Quiet("request_sha256", 0)
  {
    assert AuditKeys.Quiet("release_bundle", 9);
    assert AuditKeys.Quiet("request_sha256", 9);
  }

  lemma Literals3b()
    ensures AuditKeys.Quiet("receipts_sha256", 0)
    ensures AuditKeys.Quiet("block_daa_score", 0)
  {
    assert AuditKeys.Quiet("receipts_sha256", 9);
    assert AuditKeys.Quiet("block_daa_score", 9);
  }

  lemma Literals3c()
    ensures AuditKeys.Quiet("artifact_sha256", 0)
    ensures AuditKeys.Quiet("silverscript_ref", 0)
  {
    assert AuditKeys.Quiet("artifact_sha256", 9);
    assert AuditKeys.Quiet("silverscript_ref", 9);
  }

  lemma Literals3d()
    ensures AuditKeys.Quiet("compiler_version", 0)
    ensures AuditKeys.Quiet("constructor_args", 0)
  {
    assert AuditKeys.Quiet("compiler_version", 9);
    assert AuditKeys.Quiet("constructor_args", 9);
  }

  lemma Literals3e()
    ensures AuditKeys.Quiet("deployer_address", 0)
    ensures AuditKeys.Quiet("deploys_contracts", 0)
  {
    assert AuditKeys.Quiet("deployer_address", 9);
    assert AuditKeys.Quiet("deploys_contracts", 9);
  }

  lemma Literals3f()
    ensures AuditKeys.Quiet("signs_transactions", 0)
  {
    assert AuditKeys.Quiet("signs_transactions", 9);
  }

  lemma Literals3g()
    ensures AuditKeys.Quiet("selected_contracts", 0)
  {
    assert AuditKeys.Quiet("selected_contracts", 9);
  }

  lemma Literals3h()
    ensures AuditKeys.Quiet("deployment_profile", 0)
  {
    assert AuditKeys.Quiet("deployment_profile", 9);
  }

  lemma Literals3i()
    ensures AuditKeys.Quiet("request_set_sha256", 0)
  {
    assert AuditKeys.Quiet("request_set_sha256", 9);
  }

  lemma Quiet3(k: Name)
    requires Mark3(k) != 0 && !k.AcceptsPrivateKeys?
    ensures AuditKeys.Quiet(Written3(k), 0)
  {
    hide AuditKeys.Quiet;
    Literals3a();
    Literals3b();
    Literals3c();
    Literals3d();
    Literals3e();
    Literals3f();
    Literals3g();
    Literals3h();
    Literals3i();
  }

  lemma Literals4a()
    ensures AuditKeys.Quiet("silverscript_commit", 0)
  {
    assert AuditKeys.Quiet("silverscript_commit", 18);
    assert AuditKeys.Quiet("silverscript_commit", 9);
  }

  lemma Literals4b()
    ensures AuditKeys.Quiet("updates_status_files", 0)
  {
    assert AuditKeys.Quiet("updates_status_files", 18);
    assert AuditKeys.Quiet("updates_status_files", 9);
  }

  lemma Literals4c()
    ensures AuditKeys.Quiet("deployed_instance_id", 0)
  {
    assert AuditKeys.Quiet("deployed_instance_id", 18);
    assert AuditKeys.Quiet("deployed_instance_id", 9);
  }

  lemma Literals4d()
    ensures AuditKeys.Quiet("metrics_oracle_pubkey", 0)
  {
    assert AuditKeys.Quiet("metrics_oracle_pubkey", 18);
    assert AuditKeys.Quiet("metrics_oracle_pubkey", 9);
  }

  lemma Literals4e()
    ensures AuditKeys.Quiet("constructor_args_sha256", 0)
  {
    assert AuditKeys.Quiet("constructor_args_sha256", 18);
    assert AuditKeys.Quiet("constructor_args_sha256", 9);
  }

  lemma Literals4f()
    ensures AuditKeys.Quiet("broadcasts_transactions", 0)
  {
    assert AuditKeys.Quiet("broadcasts_transactions", 18);
    assert AuditKeys.Quiet("broadcasts_transactions", 9);
  }

  lemma Literals4g()
    ensures AuditKeys.Quiet("orchestrator_requirements", 0)
  {
    assert AuditKeys.Quiet("orchestrator_requirements", 18);
    assert AuditKeys.Quiet("orchestrator_requirements", 9);
  }

  lemma Literals4h()
    ensures AuditKeys.Quiet("full_bundle_fixture_count", 0)
  {
    assert AuditKeys.Quiet("full_bundle_fixture_count", 18);
    assert AuditKeys.Quiet("full_bundle_fixture_count", 9);
  }

  lemma Literals4i()
    ensures AuditKeys.Quiet("full_bundle_manifest_sha256", 0)
  {
    assert AuditKeys.Quiet("full_bundle_manifest_sha256", 18);
    assert AuditKeys.Quiet("full_bundle_manifest_sha256", 9);
  }

  lemma Literals4j()
    ensures AuditKeys.Quiet("assembles_chain_transaction", 0)
  {
    assert AuditKeys.Quiet("assembles_chain_transaction", 18);
    assert AuditKeys.Quiet("assembles_chain_transaction", 9);
  }

  lemma Quiet4(k: Name)
    requires Mark4(k) != 0 && !k.AcceptsPrivateKeys?
    ensures AuditKeys.Quiet(Written4(k), 0)
  {
    hide AuditKeys.Quiet;
    Literals4a();
    Literals4b();
    Literals4c();
    Literals4d();
    Literals4e();
    Literals4f();
    Literals4g();
    Literals4h();
    Literals4i();
    Literals4j();
  }

  lemma NamedIsQuiet(k: Name)
    requires !k.Other? && !k.AcceptsPrivateKeys?
    ensures AuditKeys.Quiet(Written(k), 0)
  {
    hide Written0;
    hide Mark0;
    hide Written1;
    hide Mark1;
    hide Written2;
    hide Mark2;
    hide Written3;
    hide Mark3;
    hide Written4;
    hide Mark4;
    hide AuditKeys.Quiet;
    SomeMark(k);
    if Mark0(k) != 0 {
      Quiet0(k);
    } else if Mark1(k) != 0 {
      Quiet1(k);
    } else if Mark2(k) != 0 {
      Quiet2(k);
    } else if Mark3(k) != 0 {
      Quiet3(k);
    } else if Mark4(k) != 0 {
      Quiet4(k);
    }
  }

  lemma PrivateKeysWritten()
    ensures Write(AcceptsPrivateKeys) == AuditKeys.AcceptsPrivateKeys()
  {
    assert Mark4(AcceptsPrivateKeys) == 0x146373;
  }

  /** Of the names the programs use, the pattern matches only accepts_private_keys. */
  lemma NamedSecret(k: Name)
    requires !k.Other?
    ensures AuditKeys.IsSecret(Write(k)) <==> k.AcceptsPrivateKeys?
  {
    hide Written;
    hide AuditKeys.IsSecret;
    if k.AcceptsPrivateKeys? {
      PrivateKeysWritten();
      AuditKeys.PrivateKeysSecret();
    } else {
      NamedIsQuiet(k);
      AuditKeys.QuietIsPlain(Written(k));
      AuditKeys.PlainIsAllowed(Write(k));
    }
  }
}
