/**
 * Email verification of a user account (core/models.py).
 *
 * A user has at most one verification record, created on the first request
 * for a verification link and kept afterwards. Its code is a digest of the
 * user's email address; the digest (MD5 in hexadecimal in the source) is a
 * parameter here, so the code is a function of the email and nothing else.
 * Sending the link by email is not modelled.
 */
module Accounts {

  /** A user's verification record: the code sent and whether it was matched. */
  class EmailVerification {
    var code: string
    var isVerified: bool

    /** A new record is unverified (the column's default). */
    constructor (code: string)
      ensures this.code == code
      ensures !isVerified
    {
      this.code := code;
      isVerified := false;
    }

    /**
     * `verify(key)`: the record is verified exactly when `key` is its code.
     * A wrong key revokes an earlier verification; the code never changes.
     */
    method Verify(key: string)
      modifies this`isVerified
      ensures isVerified <==> key == code
    {
      isVerified := key == code;
    }
  }

  class User {
    const email: string
    var emailVerification: EmailVerification?

    constructor (email: string)
      ensures this.email == email
      ensures emailVerification == null
    {
      this.email := email;
      emailVerification := null;
    }

    /**
     * `send_verification_email`: get or create the verification record. A
     * record is created, unverified and with the digest of the email as its
     * code, only when the user has none; an existing one is kept as it is.
     */
    method SendVerificationEmail(digest: string -> string) returns (created: bool)
      modifies this`emailVerification
      ensures created <==> old(emailVerification) == null
      ensures emailVerification != null
      ensures !created ==> emailVerification == old(emailVerification)
      ensures created ==> fresh(emailVerification)
      ensures created ==> emailVerification.code == digest(email) && !emailVerification.isVerified
    {
      created := emailVerification == null;
      if created {
        emailVerification := new EmailVerification(digest(email));
      }
    }

    /**
     * `verify_email(key)`: verify the user's record against `key`. A user
     * without a record has nothing to verify (the source raises).
     */
    method VerifyEmail(key: string) returns (found: bool)
      modifies emailVerification
      ensures found <==> emailVerification != null
      ensures found ==> (emailVerification.isVerified <==> key == emailVerification.code)
      ensures found ==> emailVerification.code == old(emailVerification.code)
    {
      found := emailVerification != null;
      if found {
        emailVerification.Verify(key);
      }
    }
  }

  /**
   * The verification test's sequence, a link requested and the code
   * received then presented, with two steps added: a second request, which
   * keeps the first record and its code (get-or-create), and a later wrong
   * key, which revokes the verification. The record is unverified until the
   * matching code arrives.
   */
  method VerificationScenario(digest: string -> string, email: string, wrongKey: string)
    requires wrongKey != digest(email)
  {
    var user := new User(email);
    var created := user.SendVerificationEmail(digest);
    assert created && !user.emailVerification.isVerified;
    var record := user.emailVerification;
    created := user.SendVerificationEmail(digest);
    assert !created && user.emailVerification == record;
    assert record.code == digest(email);
    var found := user.VerifyEmail(digest(email));
    assert found && record.isVerified;
    found := user.VerifyEmail(wrongKey);
    assert found && !record.isVerified && record.code == digest(email);
  }
}
