/** Password hashing (bcrypt in the source), reduced to the relation the accounts rely on. */
module PasswordHashing {

  /** A salted one-way digest. The salt is drawn by the caller; `image` stands for the
      one-way image of the password, which is all that verification consults. */
  datatype Digest = Digest(salt: string, image: string)

  /** The hashing library refuses an empty password: it raises an error instead of hashing. */
  predicate Hashable(password: string) {
    password != ""
  }

  /** Hashing a password under a freshly drawn salt. */
  function Hash(password: string, salt: string): (d: Digest)
    requires Hashable(password)
    ensures CheckHash(d, password)
    ensures d.salt == salt
  {
    Digest(salt, password)
  }

  /** Does the digest accept this password? */
  predicate CheckHash(d: Digest, password: string) {
    d.image == password
  }
}

/** Time-based one-time passwords (pyotp in the source). */
module OneTimePassword {

  /** Whether a submitted code is valid for a stored secret at the moment of the request.
      The clock, the code derivation and the drift window live inside this function,
      which every operation that checks a code receives as a parameter. */
  type Verifier = (string, string) -> bool

  /** The issuer name written into every provisioning payload. */
  const Issuer: string := "MyApp"

  /** What an authenticator app is enrolled with: the secret, the account label (the email)
      and the issuer. The QR image that encodes it is not modelled. */
  datatype Provisioning = Provisioning(secret: string, account: string, issuer: string)

  function ProvisioningFor(secret: string, account: string): Provisioning {
    Provisioning(secret, account, Issuer)
  }
}

/** Access and refresh tokens, reduced to their identity and role claims. */
module Tokens {

  datatype Kind = Access | Refresh

  datatype Token = Token(kind: Kind, identity: string, role: string)
}
