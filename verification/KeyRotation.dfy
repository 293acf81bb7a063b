/** app/services/key_rotation_service.py: re-encrypting every mutable restricted column under the active key. */
module KeyRotation {
  import opened Results
  import opened Crypto

  datatype Profile = Profile(user: string, nationalId: Option<string>, passportId: Option<string>)

  datatype Conversation = Conversation(id: string, preview: Option<string>)

  datatype Withdrawal = Withdrawal(id: string, iban: string)

  datatype Vault = Vault(profiles: seq<Profile>, conversations: seq<Conversation>, withdrawals: seq<Withdrawal>)

  datatype Report = Report(nationalIds: nat, passportIds: nat, previews: nat, ibans: nat)

  function NationalAad(p: Profile): string { BuildAad("courier_profiles", "national_id", p.user) }

  function PassportAad(p: Profile): string { BuildAad("courier_profiles", "passport_id", p.user) }

  function PreviewAad(c: Conversation): string { BuildAad("conversations", "last_message_preview", c.id) }

  function IbanAad(w: Withdrawal): string { BuildAad("withdrawals", "iban", w.id) }

  // ------------------------------------------------------------------ what rotation promises of a stored value

  /** A value rotation can handle: it names its version and, unless that is the active one, it decrypts. */
  predicate Rotatable(c: FieldCipher, blob: Option<string>, aad: string) {
    blob.Some? ==>
      && BlobVersion(blob.value).Done?
      && (BlobVersion(blob.value).value != c.active ==> c.Decrypt(blob.value, aad).Done?)
  }

  /** The value is under the active key, still reads as it did under its own associated data, and was left alone
      if it was under the active key already. */
  ghost predicate Renewed(c: FieldCipher, blob: Option<string>, blob': Option<string>, aad: string) {
    && (blob.None? <==> blob'.None?)
    && (blob.Some? ==>
          && BlobVersion(blob'.value) == Done(c.active)
          && c.Decrypt(blob'.value, aad) == c.Decrypt(blob.value, aad)
          && (BlobVersion(blob.value) == Done(c.active) ==> blob' == blob))
  }

  function Stale(c: FieldCipher, blob: Option<string>): nat {
    if blob.Some? && BlobVersion(blob.value) != Done(c.active) then 1 else 0
  }

  ghost predicate ProfileRenewed(c: FieldCipher, p: Profile, p': Profile) {
    && p'.user == p.user
    && Renewed(c, p.nationalId, p'.nationalId, NationalAad(p))
    && Renewed(c, p.passportId, p'.passportId, PassportAad(p))
  }

  ghost predicate ConversationRenewed(c: FieldCipher, v: Conversation, v': Conversation) {
    v'.id == v.id && Renewed(c, v.preview, v'.preview, PreviewAad(v))
  }

  ghost predicate WithdrawalRenewed(c: FieldCipher, w: Withdrawal, w': Withdrawal) {
    w'.id == w.id && Renewed(c, Some(w.iban), Some(w'.iban), IbanAad(w))
  }

  ghost predicate ProfilesRenewed(c: FieldCipher, s: seq<Profile>, s': seq<Profile>) {
    |s'| == |s| && forall i :: 0 <= i < |s| ==> ProfileRenewed(c, s[i], s'[i])
  }

  ghost predicate ConversationsRenewed(c: FieldCipher, s: seq<Conversation>, s': seq<Conversation>) {
    |s'| == |s| && forall i :: 0 <= i < |s| ==> ConversationRenewed(c, s[i], s'[i])
  }

  ghost predicate WithdrawalsRenewed(c: FieldCipher, s: seq<Withdrawal>, s': seq<Withdrawal>) {
    |s'| == |s| && forall i :: 0 <= i < |s| ==> WithdrawalRenewed(c, s[i], s'[i])
  }

  ghost predicate VaultRenewed(c: FieldCipher, v: Vault, v': Vault) {
    && ProfilesRenewed(c, v.profiles, v'.profiles)
    && ConversationsRenewed(c, v.conversations, v'.conversations)
    && WithdrawalsRenewed(c, v.withdrawals, v'.withdrawals)
  }

  ghost predicate VaultRotatable(c: FieldCipher, v: Vault) {
    && (forall i :: 0 <= i < |v.profiles| ==>
          && Rotatable(c, v.profiles[i].nationalId, NationalAad(v.profiles[i]))
          && Rotatable(c, v.profiles[i].passportId, PassportAad(v.profiles[i])))
    && (forall i :: 0 <= i < |v.conversations| ==>
          Rotatable(c, v.conversations[i].preview, PreviewAad(v.conversations[i])))
    && (forall i :: 0 <= i < |v.withdrawals| ==> Rotatable(c, Some(v.withdrawals[i].iban), IbanAad(v.withdrawals[i])))
  }

  function StaleNationals(c: FieldCipher, s: seq<Profile>): nat {
    if |s| == 0 then 0 else StaleNationals(c, s[..|s| - 1]) + Stale(c, s[|s| - 1].nationalId)
  }

  function StalePassports(c: FieldCipher, s: seq<Profile>): nat {
    if |s| == 0 then 0 else StalePassports(c, s[..|s| - 1]) + Stale(c, s[|s| - 1].passportId)
  }

  function StalePreviews(c: FieldCipher, s: seq<Conversation>): nat {
    if |s| == 0 then 0 else StalePreviews(c, s[..|s| - 1]) + Stale(c, s[|s| - 1].preview)
  }

  function StaleIbans(c: FieldCipher, s: seq<Withdrawal>): nat {
    if |s| == 0 then 0 else StaleIbans(c, s[..|s| - 1]) + Stale(c, Some(s[|s| - 1].iban))
  }

  function StaleReport(c: FieldCipher, v: Vault): Report {
    Report(StaleNationals(c, v.profiles), StalePassports(c, v.profiles), StalePreviews(c, v.conversations),
        StaleIbans(c, v.withdrawals))
  }

  // ------------------------------------------------------------------ the service

  class KeyRotationService {
    const cipher: FieldCipher
    const nonce: nat -> Bytes
    var drawn: nat
    var profiles: seq<Profile>
    var conversations: seq<Conversation>
    var withdrawals: seq<Withdrawal>

    ghost predicate Valid() {
      cipher.Valid() && Correct(cipher.aead) && forall n :: |nonce(n)| == IV_BYTES
    }

    function State(): Vault
      reads this
    {
      Vault(profiles, conversations, withdrawals)
    }

    constructor (cipher: FieldCipher, nonce: nat -> Bytes, vault: Vault)
      ensures this.cipher == cipher && this.nonce == nonce && State() == vault
    {
      this.cipher, this.nonce, drawn := cipher, nonce, 0;
      profiles, conversations, withdrawals := vault.profiles, vault.conversations, vault.withdrawals;
    }

    /** The value to store and how many were re-encrypted, zero or one. */
    method Reencrypt(blob: Option<string>, aad: string) returns (r: Outcome<(Option<string>, nat)>)
      requires Valid()
      modifies `drawn
      ensures r.Done? <==> Rotatable(cipher, blob, aad)
      ensures r.Done? ==> Renewed(cipher, blob, r.value.0, aad) && r.value.1 == Stale(cipher, blob)
    {
      hide Base64.Encode, Base64.Decode;
      if blob.None? {
        return Done((None, 0));
      }
      var version := BlobVersion(blob.value);
      if version.Failed? {
        return Failed(version.error);
      }
      if version.value == cipher.active {
        return Done((blob, 0));
      }
      var text := cipher.Decrypt(blob.value, aad);
      if text.Failed? {
        return Failed(text.error);
      }
      DecryptEncrypt(cipher, cipher, text.value, aad, nonce(drawn));
      var renewed := cipher.Encrypt(text.value, aad, nonce(drawn));
      drawn := drawn + 1;
      return Done((Some(renewed), 1));
    }

    method RotateCourierProfiles() returns (r: Outcome<(nat, nat)>)
      requires Valid()
      modifies `drawn, `profiles
      ensures r.Done? <==> forall i :: 0 <= i < |old(profiles)| ==>
                Rotatable(cipher, old(profiles)[i].nationalId, NationalAad(old(profiles)[i]))
                && Rotatable(cipher, old(profiles)[i].passportId, PassportAad(old(profiles)[i]))
      ensures r.Done? ==> ProfilesRenewed(cipher, old(profiles), profiles)
      ensures r.Done? ==> r.value == (StaleNationals(cipher, old(profiles)), StalePassports(cipher, old(profiles)))
    {
      hide Rotatable, Renewed, Stale, Correct;
      var national, passport := 0, 0;
      ghost var before := profiles;
      for i := 0 to |profiles|
        invariant |profiles| == |before|
        invariant forall k :: 0 <= k < i ==> ProfileRenewed(cipher, before[k], profiles[k])
        invariant forall k :: i <= k < |before| ==> profiles[k] == before[k]
        invariant forall k :: 0 <= k < i ==> Rotatable(cipher, before[k].nationalId, NationalAad(before[k]))
                                             && Rotatable(cipher, before[k].passportId, PassportAad(before[k]))
        invariant national == StaleNationals(cipher, before[..i]) && passport == StalePassports(cipher, before[..i])
      {
        var p := profiles[i];
        assert before[..i + 1][..i] == before[..i];
        var first := Reencrypt(p.nationalId, NationalAad(p));
        if first.Failed? {
          return Failed(first.error);
        }
        var second := Reencrypt(p.passportId, PassportAad(p));
        if second.Failed? {
          return Failed(second.error);
        }
        profiles := profiles[i := p.(nationalId := first.value.0, passportId := second.value.0)];
        national, passport := national + first.value.1, passport + second.value.1;
      }
      assert before[..|before|] == before;
      return Done((national, passport));
    }

    method RotateConversationPreviews() returns (r: Outcome<nat>)
      requires Valid()
      modifies `drawn, `conversations
      ensures r.Done? <==> forall i :: 0 <= i < |old(conversations)| ==>
                Rotatable(cipher, old(conversations)[i].preview, PreviewAad(old(conversations)[i]))
      ensures r.Done? ==> ConversationsRenewed(cipher, old(conversations), conversations)
      ensures r.Done? ==> r.value == StalePreviews(cipher, old(conversations))
    {
      hide Rotatable, Renewed, Stale, Correct;
      var count := 0;
      ghost var before := conversations;
      for i := 0 to |conversations|
        invariant |conversations| == |before|
        invariant forall k :: 0 <= k < i ==> ConversationRenewed(cipher, before[k], conversations[k])
        invariant forall k :: i <= k < |before| ==> conversations[k] == before[k]
        invariant forall k :: 0 <= k < i ==> Rotatable(cipher, before[k].preview, PreviewAad(before[k]))
        invariant count == StalePreviews(cipher, before[..i])
      {
        var v := conversations[i];
        assert before[..i + 1][..i] == before[..i];
        var renewed := Reencrypt(v.preview, PreviewAad(v));
        if renewed.Failed? {
          return Failed(renewed.error);
        }
        conversations := conversations[i := v.(preview := renewed.value.0)];
        count := count + renewed.value.1;
      }
      assert before[..|before|] == before;
      return Done(count);
    }

    method RotateWithdrawals() returns (r: Outcome<nat>)
      requires Valid()
      modifies `drawn, `withdrawals
      ensures r.Done? <==> forall i :: 0 <= i < |old(withdrawals)| ==>
                Rotatable(cipher, Some(old(withdrawals)[i].iban), IbanAad(old(withdrawals)[i]))
      ensures r.Done? ==> WithdrawalsRenewed(cipher, old(withdrawals), withdrawals)
      ensures r.Done? ==> r.value == StaleIbans(cipher, old(withdrawals))
    {
      hide Rotatable, Stale, Correct, BlobVersion;
      var count := 0;
      ghost var before := withdrawals;
      for i := 0 to |withdrawals|
        invariant |withdrawals| == |before|
        invariant forall k :: 0 <= k < i ==> WithdrawalRenewed(cipher, before[k], withdrawals[k])
        invariant forall k :: i <= k < |before| ==> withdrawals[k] == before[k]
        invariant forall k :: 0 <= k < i ==> Rotatable(cipher, Some(before[k].iban), IbanAad(before[k]))
        invariant count == StaleIbans(cipher, before[..i])
      {
        var w := withdrawals[i];
        assert before[..i + 1][..i] == before[..i];
        var renewed := Reencrypt(Some(w.iban), IbanAad(w));
        if renewed.Failed? {
          return Failed(renewed.error);
        }
        withdrawals := withdrawals[i := w.(iban := renewed.value.0.value)];
        count := count + renewed.value.1;
      }
      assert before[..|before|] == before;
      return Done(count);
    }

    /** Rotation succeeds exactly when every stored value can be handled; it then renews all of them and reports
        exactly how many were stale. Otherwise the caller rolls back. */
    method Rotate() returns (r: Outcome<Report>)
      requires Valid()
      modifies this
      ensures r.Done? <==> VaultRotatable(cipher, old(State()))
      ensures r.Done? ==> VaultRenewed(cipher, old(State()), State()) && r.value == StaleReport(cipher, old(State()))
    {
      hide Rotatable, ProfileRenewed, ConversationRenewed, WithdrawalRenewed, Correct;
      var people := RotateCourierProfiles();
      if people.Failed? {
        return Failed(people.error);
      }
      var previews := RotateConversationPreviews();
      if previews.Failed? {
        return Failed(previews.error);
      }
      var ibans := RotateWithdrawals();
      if ibans.Failed? {
        return Failed(ibans.error);
      }
      return Done(Report(people.value.0, people.value.1, previews.value, ibans.value));
    }
  }

  // ------------------------------------------------------------------ what that means

  /** The cells by name, as the services that write them name them. */
  lemma CellsAre(p: Profile, v: Conversation, w: Withdrawal)
    ensures NationalAad(p) == "courier_profiles:national_id:" + p.user
    ensures PassportAad(p) == "courier_profiles:passport_id:" + p.user
    ensures PreviewAad(v) == "conversations:last_message_preview:" + v.id
    ensures IbanAad(w) == "withdrawals:iban:" + w.id
  {
    hide BuildAad;
    AadIs("courier_profiles", "national_id", "courier_profiles:national_id:", p.user);
    AadIs("courier_profiles", "passport_id", "courier_profiles:passport_id:", p.user);
    AadIs("conversations", "last_message_preview", "conversations:last_message_preview:", v.id);
    AadIs("withdrawals", "iban", "withdrawals:iban:", w.id);
  }

  lemma AadIs(table: string, column: string, prefix: string, id: string)
    requires prefix == table + ":" + column + ":"
    ensures BuildAad(table, column, id) == prefix + id
  {
  }

  /** Whatever some cipher wrote under a key version the service still carries can be rotated. */
  lemma WrittenIsRotatable(writer: FieldCipher, c: FieldCipher, text: Bytes, aad: string, iv: Bytes)
    requires writer.Valid() && Correct(writer.aead) && |iv| == IV_BYTES && c.aead == writer.aead
    requires writer.active in c.keys && c.keys[writer.active] == writer.keys[writer.active]
    ensures Rotatable(c, Some(writer.Encrypt(text, aad, iv)), aad)
  {
    hide Base64.Encode, Base64.Decode;
    DecryptEncrypt(writer, c, text, aad, iv);
  }

  lemma RenewedIsFresh(c: FieldCipher, blob: Option<string>, blob': Option<string>, aad: string)
    requires Renewed(c, blob, blob', aad)
    ensures Stale(c, blob') == 0 && Rotatable(c, blob', aad)
    ensures forall blob'' :: Renewed(c, blob', blob'', aad) ==> blob'' == blob'
  {
    hide BlobVersion;
  }

  lemma {:induction false} NothingStale(c: FieldCipher, v: Vault, v': Vault)
    requires VaultRenewed(c, v, v')
    ensures StaleReport(c, v') == Report(0, 0, 0, 0)
    decreases |v'.profiles| + |v'.conversations| + |v'.withdrawals|
  {
    hide Renewed, Stale;
    if |v'.profiles| > 0 {
      var n := |v'.profiles| - 1;
      NothingStale(c, v.(profiles := v.profiles[..n]), v'.(profiles := v'.profiles[..n]));
      var p, p' := v.profiles[n], v'.profiles[n];
      RenewedIsFresh(c, p.nationalId, p'.nationalId, NationalAad(p));
      RenewedIsFresh(c, p.passportId, p'.passportId, PassportAad(p));
    } else if |v'.conversations| > 0 {
      var n := |v'.conversations| - 1;
      NothingStale(c, v.(conversations := v.conversations[..n]), v'.(conversations := v'.conversations[..n]));
      RenewedIsFresh(c, v.conversations[n].preview, v'.conversations[n].preview, PreviewAad(v.conversations[n]));
    } else if |v'.withdrawals| > 0 {
      var n := |v'.withdrawals| - 1;
      NothingStale(c, v.(withdrawals := v.withdrawals[..n]), v'.(withdrawals := v'.withdrawals[..n]));
      RenewedIsFresh(c, Some(v.withdrawals[n].iban), Some(v'.withdrawals[n].iban), IbanAad(v.withdrawals[n]));
    }
  }

  /** A second rotation finds nothing stale and changes nothing. */
  lemma SecondRotationIsIdle(c: FieldCipher, v: Vault, v': Vault, v'': Vault)
    requires VaultRenewed(c, v, v') && VaultRenewed(c, v', v'')
    ensures v'' == v' && StaleReport(c, v') == Report(0, 0, 0, 0) && VaultRotatable(c, v')
  {
    hide Renewed, Stale, Rotatable, StaleNationals, StalePassports, StalePreviews, StaleIbans;
    NothingStale(c, v, v');
    forall i | 0 <= i < |v'.profiles|
      ensures v''.profiles[i] == v'.profiles[i]
      ensures Rotatable(c, v'.profiles[i].nationalId, NationalAad(v'.profiles[i]))
      ensures Rotatable(c, v'.profiles[i].passportId, PassportAad(v'.profiles[i]))
    {
      var p, p' := v.profiles[i], v'.profiles[i];
      assert ProfileRenewed(c, p, p') && ProfileRenewed(c, p', v''.profiles[i]);
      RenewedIsFresh(c, p.nationalId, p'.nationalId, NationalAad(p));
      RenewedIsFresh(c, p.passportId, p'.passportId, PassportAad(p));
    }
    forall i | 0 <= i < |v'.conversations|
      ensures v''.conversations[i] == v'.conversations[i]
      ensures Rotatable(c, v'.conversations[i].preview, PreviewAad(v'.conversations[i]))
    {
      var x, x' := v.conversations[i], v'.conversations[i];
      assert ConversationRenewed(c, x, x') && ConversationRenewed(c, x', v''.conversations[i]);
      RenewedIsFresh(c, x.preview, x'.preview, PreviewAad(x));
    }
    forall i | 0 <= i < |v'.withdrawals|
      ensures v''.withdrawals[i] == v'.withdrawals[i]
      ensures Rotatable(c, Some(v'.withdrawals[i].iban), IbanAad(v'.withdrawals[i]))
    {
      var w, w' := v.withdrawals[i], v'.withdrawals[i];
      assert WithdrawalRenewed(c, w, w') && WithdrawalRenewed(c, w', v''.withdrawals[i]);
      RenewedIsFresh(c, Some(w.iban), Some(w'.iban), IbanAad(w));
    }
  }
}
