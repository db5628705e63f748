/**
 * The practice-question bank: five per-domain lists of four-option
 * multiple-choice questions, and the global pool made by concatenating them
 * (security_plus_knowledge_base.py).
 */
module QuestionBank {
  import opened Dict

  /** One question: prompt, labelled options, the correct label, an explanation. */
  datatype Question = Question(question: string, options: seq<string>, correct: string, explanation: string)

  /** The label of the option at position `i`: "A", "B", "C" or "D". */
  function Label(i: nat): (l: string)
    requires i < 4
    ensures |l| == 1
  {
    ["ABCD"[i]]
  }

  /** Every question of a list is well formed. */
  predicate AllWellFormed(qs: seq<Question>) {
    forall q :: q in qs ==> WellFormed(q)
  }

  lemma AppendWellFormed(qs: seq<Question>, q: Question)
    requires AllWellFormed(qs) && WellFormed(q)
    ensures AllWellFormed(qs + [q])
  {
  }

  /** Every question has the options "A) ..", "B) ..", "C) ..", "D) .." in that order,
   * and its correct answer is the label of exactly one of them. */
  predicate WellFormed(q: Question) {
    && |q.options| == 4
    && (forall i :: 0 <= i < 4 ==> Label(i) + ") " <= q.options[i])
    && |q.correct| == 1
    && (exists i :: 0 <= i < 4 && q.options[i][..1] == q.correct)
    && (forall i, j :: 0 <= i < 4 && 0 <= j < 4 && q.options[i][..1] == q.correct && q.options[j][..1] == q.correct ==> i == j)
  }

  /**
   * A question written with its option texts "A) a", "B) b", "C) c", "D) d".
   * The bank below spells every option this way in the source, so a question
   * built here equals the literal one.
   */
  function Q4(question: string, a: string, b: string, c: string, d: string, correct: string, explanation: string): (q: Question)
    ensures correct in {"A", "B", "C", "D"} ==> WellFormed(q)
  {
    LabelledOptions(question, a, b, c, d, correct, explanation);
    Question(question, ["A) " + a, "B) " + b, "C) " + c, "D) " + d], correct, explanation)
  }

  lemma LabelledOptions(question: string, a: string, b: string, c: string, d: string, correct: string, explanation: string)
    ensures correct in {"A", "B", "C", "D"} ==>
      WellFormed(Question(question, ["A) " + a, "B) " + b, "C) " + c, "D) " + d], correct, explanation))
  {
    var q := Question(question, ["A) " + a, "B) " + b, "C) " + c, "D) " + d], correct, explanation);
    assert q.options[0] == Label(0) + ") " + a;
    assert q.options[1] == Label(1) + ") " + b;
    assert q.options[2] == Label(2) + ") " + c;
    assert q.options[3] == Label(3) + ") " + d;
    forall i | 0 <= i < 4 ensures q.options[i][..1] == Label(i) && Label(i) + ") " <= q.options[i] {
    }
    if correct in {"A", "B", "C", "D"} {
      var k := if correct == "A" then 0 else if correct == "B" then 1 else if correct == "C" then 2 else 3;
      assert q.options[k][..1] == correct;
    }
  }

  /** The "domain_1" list (security_plus_knowledge_base.py:25-146). */
  method Domain1Questions() returns (qs: seq<Question>)
    ensures |qs| == 15 && AllWellFormed(qs)
  {
    qs := [];
    var q01 := D1Q01(); AppendWellFormed(qs, q01); qs := qs + [q01];
    var q02 := D1Q02(); AppendWellFormed(qs, q02); qs := qs + [q02];
    var q03 := D1Q03(); AppendWellFormed(qs, q03); qs := qs + [q03];
    var q04 := D1Q04(); AppendWellFormed(qs, q04); qs := qs + [q04];
    var q05 := D1Q05(); AppendWellFormed(qs, q05); qs := qs + [q05];
    var q06 := D1Q06(); AppendWellFormed(qs, q06); qs := qs + [q06];
    var q07 := D1Q07(); AppendWellFormed(qs, q07); qs := qs + [q07];
    var q08 := D1Q08(); AppendWellFormed(qs, q08); qs := qs + [q08];
    var q09 := D1Q09(); AppendWellFormed(qs, q09); qs := qs + [q09];
    var q10 := D1Q10(); AppendWellFormed(qs, q10); qs := qs + [q10];
    var q11 := D1Q11(); AppendWellFormed(qs, q11); qs := qs + [q11];
    var q12 := D1Q12(); AppendWellFormed(qs, q12); qs := qs + [q12];
    var q13 := D1Q13(); AppendWellFormed(qs, q13); qs := qs + [q13];
    var q14 := D1Q14(); AppendWellFormed(qs, q14); qs := qs + [q14];
    var q15 := D1Q15(); AppendWellFormed(qs, q15); qs := qs + [q15];
  }

  // security_plus_knowledge_base.py:26-31
  method D1Q01() returns (q: Question)
    ensures WellFormed(q)
  {
    q := Q4("Which malware can replicate without user interaction?",
            "Virus", "Worm",
            "Trojan", "Rootkit",
            "B", "Worms self-replicate and spread across networks without user action.");
  }

  // security_plus_knowledge_base.py:32-42
  method D1Q02() returns (q: Question)
    ensures WellFormed(q)
  {
    q := Q4("What does CIA Triad stand for?",
            "Confidentiality, Integrity, Availability", "Control, Identity, Access",
            "Cryptography, Identification, Authentication", "Compliance, Investigation, Analysis",
            "A", "The CIA Triad is Confidentiality, Integrity, Availability.");
  }

  // security_plus_knowledge_base.py:43-48
  method D1Q03() returns (q: Question)
    ensures WellFormed(q)
  {
    q := Q4("Which type of attack involves sending falsified emails to appear legitimate?",
            "Phishing", "Vishing",
            "Smishing", "Spoofing",
            "A", "Phishing uses email to trick users into revealing sensitive information.");
  }

  // security_plus_knowledge_base.py:49-59
  method D1Q04() returns (q: Question)
    ensures WellFormed(q)
  {
    q := Q4("What is the primary purpose of a firewall?",
            "Encrypt data", "Filter network traffic",
            "Detect malware", "Backup data",
            "B", "Firewalls filter and control network traffic based on security rules.");
  }

  // security_plus_knowledge_base.py:60-65
  method D1Q05() returns (q: Question)
    ensures WellFormed(q)
  {
    q := Q4("Which authentication factor is something you ARE?",
            "Password", "Token",
            "Fingerprint", "PIN",
            "C", "Biometric factors like fingerprints are something you ARE (Type 2).");
  }

  // security_plus_knowledge_base.py:66-71
  method D1Q06() returns (q: Question)
    ensures WellFormed(q)
  {
    q := Q4("What type of malware encrypts files and demands payment?",
            "Ransomware", "Spyware",
            "Adware", "Logic bomb",
            "A", "Ransomware encrypts victim's files and demands payment for decryption.");
  }

  // security_plus_knowledge_base.py:72-77
  method D1Q07() returns (q: Question)
    ensures WellFormed(q)
  {
    q := Q4("Which attack involves intercepting communication between two parties?",
            "Man-in-the-middle", "DoS",
            "SQL injection", "Cross-site scripting",
            "A", "Man-in-the-middle attacks intercept and potentially alter communications.");
  }

  // security_plus_knowledge_base.py:78-88
  method D1Q08() returns (q: Question)
    ensures WellFormed(q)
  {
    q := Q4("What is the purpose of a DMZ network?",
            "Separate internal network from external threats", "Encrypt all traffic",
            "Store sensitive data", "Monitor user activity",
            "A", "A DMZ provides a buffer zone between trusted internal networks and untrusted external networks.");
  }

  // security_plus_knowledge_base.py:89-94
  method D1Q09() returns (q: Question)
    ensures WellFormed(q)
  {
    q := Q4("Which type of firewall operates at the transport layer?",
            "Stateful inspection", "Packet filtering",
            "Proxy", "Next-generation",
            "A", "Stateful inspection firewalls operate at the transport layer and track connection states.");
  }

  // security_plus_knowledge_base.py:95-105
  method D1Q10() returns (q: Question)
    ensures WellFormed(q)
  {
    q := Q4("What is social engineering?",
            "Manipulating people to divulge information", "Hacking software systems",
            "Breaking encryption", "Scanning network ports",
            "A", "Social engineering exploits human psychology to gain confidential information.");
  }

  // security_plus_knowledge_base.py:106-111
  method D1Q11() returns (q: Question)
    ensures WellFormed(q)
  {
    q := Q4("Which protocol is considered insecure for remote access?",
            "Telnet", "SSH",
            "HTTPS", "SFTP",
            "A", "Telnet transmits data in plaintext, making it insecure for remote access.");
  }

  // security_plus_knowledge_base.py:112-122
  method D1Q12() returns (q: Question)
    ensures WellFormed(q)
  {
    q := Q4("What is a zero-day vulnerability?",
            "Unknown vulnerability with no available patch", "Virus that activates on January 1st",
            "Exploit that requires zero user interaction", "Security flaw in new software releases",
            "A", "Zero-day vulnerabilities are unknown to the vendor and have no available patches.");
  }

  // security_plus_knowledge_base.py:123-128
  method D1Q13() returns (q: Question)
    ensures WellFormed(q)
  {
    q := Q4("Which device operates at Layer 2 of the OSI model?",
            "Switch", "Router",
            "Firewall", "Load balancer",
            "A", "Switches operate at Layer 2 (Data Link layer) of the OSI model.");
  }

  // security_plus_knowledge_base.py:129-139
  method D1Q14() returns (q: Question)
    ensures WellFormed(q)
  {
    q := Q4("What is the primary purpose of penetration testing?",
            "Identify security vulnerabilities", "Monitor network traffic",
            "Encrypt sensitive data", "Backup critical systems",
            "A", "Penetration testing simulates attacks to identify security weaknesses.");
  }

  // security_plus_knowledge_base.py:140-145
  method D1Q15() returns (q: Question)
    ensures WellFormed(q)
  {
    q := Q4("Which type of authentication uses something you KNOW?",
            "Password", "Fingerprint",
            "Smart card", "Retina scan",
            "A", "Passwords, PINs, and security questions are knowledge factors (something you know).");
  }

  /** The "domain_2" list (security_plus_knowledge_base.py:147-273). */
  method Domain2Questions() returns (qs: seq<Question>)
    ensures |qs| == 15 && AllWellFormed(qs)
  {
    qs := [];
    var q01 := D2Q01(); AppendWellFormed(qs, q01); qs := qs + [q01];
    var q02 := D2Q02(); AppendWellFormed(qs, q02); qs := qs + [q02];
    var q03 := D2Q03(); AppendWellFormed(qs, q03); qs := qs + [q03];
    var q04 := D2Q04(); AppendWellFormed(qs, q04); qs := qs + [q04];
    var q05 := D2Q05(); AppendWellFormed(qs, q05); qs := qs + [q05];
    var q06 := D2Q06(); AppendWellFormed(qs, q06); qs := qs + [q06];
    var q07 := D2Q07(); AppendWellFormed(qs, q07); qs := qs + [q07];
    var q08 := D2Q08(); AppendWellFormed(qs, q08); qs := qs + [q08];
    var q09 := D2Q09(); AppendWellFormed(qs, q09); qs := qs + [q09];
    var q10 := D2Q10(); AppendWellFormed(qs, q10); qs := qs + [q10];
    var q11 := D2Q11(); AppendWellFormed(qs, q11); qs := qs + [q11];
    var q12 := D2Q12(); AppendWellFormed(qs, q12); qs := qs + [q12];
    var q13 := D2Q13(); AppendWellFormed(qs, q13); qs := qs + [q13];
    var q14 := D2Q14(); AppendWellFormed(qs, q14); qs := qs + [q14];
    var q15 := D2Q15(); AppendWellFormed(qs, q15); qs := qs + [q15];
  }

  // security_plus_knowledge_base.py:148-153
  method D2Q01() returns (q: Question)
    ensures WellFormed(q)
  {
    q := Q4("Which encryption uses the same key for encrypt/decrypt?",
            "Asymmetric", "Symmetric",
            "Hashing", "Public Key",
            "B", "Symmetric encryption uses one shared key.");
  }

  // security_plus_knowledge_base.py:154-164
  method D2Q02() returns (q: Question)
    ensures WellFormed(q)
  {
    q := Q4("What is the purpose of a certificate authority (CA)?",
            "Issue digital certificates", "Encrypt email",
            "Block malware", "Monitor network traffic",
            "A", "CAs issue and verify digital certificates for public key infrastructure.");
  }

  // security_plus_knowledge_base.py:165-170
  method D2Q03() returns (q: Question)
    ensures WellFormed(q)
  {
    q := Q4("Which hashing algorithm is considered insecure?",
            "SHA-256", "SHA-512",
            "MD5", "bcrypt",
            "C", "MD5 has known vulnerabilities and is considered insecure for cryptographic purposes.");
  }

  // security_plus_knowledge_base.py:171-181
  method D2Q04() returns (q: Question)
    ensures WellFormed(q)
  {
    q := Q4("What does PKI stand for?",
            "Public Key Infrastructure", "Private Key Initiative",
            "Password Key Interface", "Protected Key Identification",
            "A", "PKI is Public Key Infrastructure, used for managing digital certificates.");
  }

  // security_plus_knowledge_base.py:182-187
  method D2Q05() returns (q: Question)
    ensures WellFormed(q)
  {
    q := Q4("Which protocol is used for secure web browsing?",
            "HTTP", "FTP",
            "HTTPS", "Telnet",
            "C", "HTTPS uses SSL/TLS to encrypt web traffic.");
  }

  // security_plus_knowledge_base.py:188-198
  method D2Q06() returns (q: Question)
    ensures WellFormed(q)
  {
    q := Q4("What is the primary purpose of salting in password hashing?",
            "Prevent rainbow table attacks", "Speed up hashing",
            "Reduce storage requirements", "Simplify password recovery",
            "A", "Salting adds random data to passwords before hashing to prevent rainbow table attacks.");
  }

  // security_plus_knowledge_base.py:199-204
  method D2Q07() returns (q: Question)
    ensures WellFormed(q)
  {
    q := Q4("Which symmetric encryption algorithm is commonly used?",
            "AES", "RSA",
            "ECC", "DSA",
            "A", "AES (Advanced Encryption Standard) is widely used symmetric encryption.");
  }

  // security_plus_knowledge_base.py:205-215
  method D2Q08() returns (q: Question)
    ensures WellFormed(q)
  {
    q := Q4("What is a digital signature used for?",
            "Verify authenticity and integrity", "Encrypt data",
            "Compress files", "Hide information",
            "A", "Digital signatures verify the authenticity and integrity of digital messages.");
  }

  // security_plus_knowledge_base.py:216-221
  method D2Q09() returns (q: Question)
    ensures WellFormed(q)
  {
    q := Q4("Which key exchange protocol provides forward secrecy?",
            "Diffie-Hellman", "RSA",
            "AES", "MD5",
            "A", "Diffie-Hellman provides forward secrecy, meaning past sessions remain secure even if keys are compromised.");
  }

  // security_plus_knowledge_base.py:222-232
  method D2Q10() returns (q: Question)
    ensures WellFormed(q)
  {
    q := Q4("What is the purpose of a certificate revocation list (CRL)?",
            "List revoked certificates", "Issue new certificates",
            "Encrypt communications", "Store private keys",
            "A", "CRLs contain serial numbers of certificates that have been revoked before expiration.");
  }

  // security_plus_knowledge_base.py:233-238
  method D2Q11() returns (q: Question)
    ensures WellFormed(q)
  {
    q := Q4("Which encryption mode requires each block to be encrypted sequentially?",
            "CBC", "ECB",
            "CTR", "GCM",
            "A", "CBC (Cipher Block Chaining) requires each block to be encrypted sequentially using the previous block's ciphertext.");
  }

  // security_plus_knowledge_base.py:239-249
  method D2Q12() returns (q: Question)
    ensures WellFormed(q)
  {
    q := Q4("What is steganography?",
            "Hiding data within other data", "Encrypting data with keys",
            "Compressing data", "Transferring data securely",
            "A", "Steganography conceals messages within other non-secret data or media.");
  }

  // security_plus_knowledge_base.py:250-255
  method D2Q13() returns (q: Question)
    ensures WellFormed(q)
  {
    q := Q4("Which algorithm is used for asymmetric encryption?",
            "RSA", "AES",
            "DES", "3DES",
            "A", "RSA is a widely used asymmetric encryption algorithm for secure data transmission.");
  }

  // security_plus_knowledge_base.py:256-266
  method D2Q14() returns (q: Question)
    ensures WellFormed(q)
  {
    q := Q4("What is the purpose of a nonce in cryptography?",
            "Ensure uniqueness in cryptographic operations", "Encrypt data",
            "Hash passwords", "Sign documents",
            "A", "A nonce (number used once) ensures replay attacks cannot succeed.");
  }

  // security_plus_knowledge_base.py:267-272
  method D2Q15() returns (q: Question)
    ensures WellFormed(q)
  {
    q := Q4("Which protocol provides secure email transmission?",
            "S/MIME", "SMTP",
            "POP3", "IMAP",
            "A", "S/MIME (Secure/Multipurpose Internet Mail Extensions) provides secure email transmission.");
  }

  /** The "domain_3" list (security_plus_knowledge_base.py:274-405). */
  method Domain3Questions() returns (qs: seq<Question>)
    ensures |qs| == 15 && AllWellFormed(qs)
  {
    qs := [];
    var q01 := D3Q01(); AppendWellFormed(qs, q01); qs := qs + [q01];
    var q02 := D3Q02(); AppendWellFormed(qs, q02); qs := qs + [q02];
    var q03 := D3Q03(); AppendWellFormed(qs, q03); qs := qs + [q03];
    var q04 := D3Q04(); AppendWellFormed(qs, q04); qs := qs + [q04];
    var q05 := D3Q05(); AppendWellFormed(qs, q05); qs := qs + [q05];
    var q06 := D3Q06(); AppendWellFormed(qs, q06); qs := qs + [q06];
    var q07 := D3Q07(); AppendWellFormed(qs, q07); qs := qs + [q07];
    var q08 := D3Q08(); AppendWellFormed(qs, q08); qs := qs + [q08];
    var q09 := D3Q09(); AppendWellFormed(qs, q09); qs := qs + [q09];
    var q10 := D3Q10(); AppendWellFormed(qs, q10); qs := qs + [q10];
    var q11 := D3Q11(); AppendWellFormed(qs, q11); qs := qs + [q11];
    var q12 := D3Q12(); AppendWellFormed(qs, q12); qs := qs + [q12];
    var q13 := D3Q13(); AppendWellFormed(qs, q13); qs := qs + [q13];
    var q14 := D3Q14(); AppendWellFormed(qs, q14); qs := qs + [q14];
    var q15 := D3Q15(); AppendWellFormed(qs, q15); qs := qs + [q15];
  }

  // security_plus_knowledge_base.py:275-285
  method D3Q01() returns (q: Question)
    ensures WellFormed(q)
  {
    q := Q4("What is the primary goal of identity and access management (IAM)?",
            "Manage user identities and control access", "Encrypt all data",
            "Monitor network traffic", "Backup systems",
            "A", "IAM manages digital identities and controls user access to resources.");
  }

  // security_plus_knowledge_base.py:286-291
  method D3Q02() returns (q: Question)
    ensures WellFormed(q)
  {
    q := Q4("Which authentication method requires two or more factors?",
            "Single-factor", "Multi-factor",
            "Biometric", "Token-based",
            "B", "Multi-factor authentication requires two or more different types of authentication.");
  }

  // security_plus_knowledge_base.py:292-302
  method D3Q03() returns (q: Question)
    ensures WellFormed(q)
  {
    q := Q4("What is the principle of least privilege?",
            "Give users maximum access", "Give users only necessary access",
            "No access for anyone", "Same access for all users",
            "B", "Least privilege means users only get the minimum access required for their job.");
  }

  // security_plus_knowledge_base.py:303-308
  method D3Q04() returns (q: Question)
    ensures WellFormed(q)
  {
    q := Q4("Which account type should be disabled when not needed?",
            "User", "Admin",
            "Guest", "Service",
            "C", "Guest accounts should be disabled when not in use to reduce security risks.");
  }

  // security_plus_knowledge_base.py:309-319
  method D3Q05() returns (q: Question)
    ensures WellFormed(q)
  {
    q := Q4("What is the purpose of account lockout policies?",
            "Prevent password guessing", "Force password changes",
            "Log user activity", "Encrypt passwords",
            "A", "Account lockout prevents brute force attacks by limiting failed login attempts.");
  }

  // security_plus_knowledge_base.py:320-325
  method D3Q06() returns (q: Question)
    ensures WellFormed(q)
  {
    q := Q4("Which protocol provides centralized authentication?",
            "LDAP", "HTTP",
            "FTP", "SMTP",
            "A", "LDAP (Lightweight Directory Access Protocol) provides centralized authentication services.");
  }

  // security_plus_knowledge_base.py:326-336
  method D3Q07() returns (q: Question)
    ensures WellFormed(q)
  {
    q := Q4("What is the purpose of role-based access control (RBAC)?",
            "Assign permissions based on job roles", "Encrypt user data",
            "Monitor network traffic", "Backup user accounts",
            "A", "RBAC assigns permissions to users based on their job roles within an organization.");
  }

  // security_plus_knowledge_base.py:337-342
  method D3Q08() returns (q: Question)
    ensures WellFormed(q)
  {
    q := Q4("Which authentication factor is something you HAVE?",
            "Password", "Token",
            "Fingerprint", "Voice pattern",
            "B", "Tokens, smart cards, and keys are possession factors (something you have).");
  }

  // security_plus_knowledge_base.py:343-353
  method D3Q09() returns (q: Question)
    ensures WellFormed(q)
  {
    q := Q4("What is the purpose of password complexity requirements?",
            "Make passwords harder to guess", "Speed up login process",
            "Reduce storage needs", "Simplify password recovery",
            "A", "Password complexity requirements make passwords more resistant to guessing and cracking attacks.");
  }

  // security_plus_knowledge_base.py:354-359
  method D3Q10() returns (q: Question)
    ensures WellFormed(q)
  {
    q := Q4("Which technology provides single sign-on (SSO) capability?",
            "SAML", "SSL",
            "SSH", "SMTP",
            "A", "SAML (Security Assertion Markup Language) enables single sign-on across different systems.");
  }

  // security_plus_knowledge_base.py:360-370
  method D3Q11() returns (q: Question)
    ensures WellFormed(q)
  {
    q := Q4("What is the primary purpose of an identity provider (IdP)?",
            "Authenticate users and provide identity information", "Store application data",
            "Monitor network traffic", "Encrypt communications",
            "A", "Identity providers authenticate users and manage identity information for SSO systems.");
  }

  // security_plus_knowledge_base.py:371-376
  method D3Q12() returns (q: Question)
    ensures WellFormed(q)
  {
    q := Q4("Which type of attack tries to gain access by using default credentials?",
            "Default credential attack", "Phishing",
            "Man-in-the-middle", "DoS",
            "A", "Default credential attacks exploit unchanged default usernames and passwords.");
  }

  // security_plus_knowledge_base.py:377-387
  method D3Q13() returns (q: Question)
    ensures WellFormed(q)
  {
    q := Q4("What is the purpose of just-in-time (JIT) access?",
            "Grant temporary access when needed", "Provide permanent admin rights",
            "Encrypt all data", "Monitor user activity",
            "A", "JIT access provides temporary permissions that are automatically revoked after use.");
  }

  // security_plus_knowledge_base.py:388-393
  method D3Q14() returns (q: Question)
    ensures WellFormed(q)
  {
    q := Q4("Which protocol is used for secure remote authentication?",
            "RADIUS", "HTTP",
            "FTP", "Telnet",
            "A", "RADIUS provides centralized authentication, authorization, and accounting for network access.");
  }

  // security_plus_knowledge_base.py:394-404
  method D3Q15() returns (q: Question)
    ensures WellFormed(q)
  {
    q := Q4("What is the purpose of privileged access management (PAM)?",
            "Control and monitor privileged accounts", "Encrypt all user data",
            "Backup critical systems", "Monitor network traffic",
            "A", "PAM systems control, monitor, and audit privileged access to critical resources.");
  }

  /** The "domain_4" list (security_plus_knowledge_base.py:406-527). */
  method Domain4Questions() returns (qs: seq<Question>)
    ensures |qs| == 15 && AllWellFormed(qs)
  {
    qs := [];
    var q01 := D4Q01(); AppendWellFormed(qs, q01); qs := qs + [q01];
    var q02 := D4Q02(); AppendWellFormed(qs, q02); qs := qs + [q02];
    var q03 := D4Q03(); AppendWellFormed(qs, q03); qs := qs + [q03];
    var q04 := D4Q04(); AppendWellFormed(qs, q04); qs := qs + [q04];
    var q05 := D4Q05(); AppendWellFormed(qs, q05); qs := qs + [q05];
    var q06 := D4Q06(); AppendWellFormed(qs, q06); qs := qs + [q06];
    var q07 := D4Q07(); AppendWellFormed(qs, q07); qs := qs + [q07];
    var q08 := D4Q08(); AppendWellFormed(qs, q08); qs := qs + [q08];
    var q09 := D4Q09(); AppendWellFormed(qs, q09); qs := qs + [q09];
    var q10 := D4Q10(); AppendWellFormed(qs, q10); qs := qs + [q10];
    var q11 := D4Q11(); AppendWellFormed(qs, q11); qs := qs + [q11];
    var q12 := D4Q12(); AppendWellFormed(qs, q12); qs := qs + [q12];
    var q13 := D4Q13(); AppendWellFormed(qs, q13); qs := qs + [q13];
    var q14 := D4Q14(); AppendWellFormed(qs, q14); qs := qs + [q14];
    var q15 := D4Q15(); AppendWellFormed(qs, q15); qs := qs + [q15];
  }

  // security_plus_knowledge_base.py:407-412
  method D4Q01() returns (q: Question)
    ensures WellFormed(q)
  {
    q := Q4("What type of testing involves simulating an attack?",
            "Penetration testing", "Vulnerability scanning",
            "Code review", "Risk assessment",
            "A", "Penetration testing simulates real attacks to identify security weaknesses.");
  }

  // security_plus_knowledge_base.py:413-418
  method D4Q02() returns (q: Question)
    ensures WellFormed(q)
  {
    q := Q4("Which log type records user access to resources?",
            "Access logs", "Error logs",
            "System logs", "Debug logs",
            "A", "Access logs record who accessed what resources and when.");
  }

  // security_plus_knowledge_base.py:419-429
  method D4Q03() returns (q: Question)
    ensures WellFormed(q)
  {
    q := Q4("What is the purpose of SIEM systems?",
            "Collect and analyze log data", "Encrypt network traffic",
            "Manage user accounts", "Backup data",
            "A", "SIEM systems collect, correlate, and analyze security event data from multiple sources.");
  }

  // security_plus_knowledge_base.py:430-435
  method D4Q04() returns (q: Question)
    ensures WellFormed(q)
  {
    q := Q4("Which scanning method identifies open ports and services?",
            "Port scanning", "Vulnerability scanning",
            "Network mapping", "Packet sniffing",
            "A", "Port scanning identifies open ports and the services running on them.");
  }

  // security_plus_knowledge_base.py:436-441
  method D4Q05() returns (q: Question)
    ensures WellFormed(q)
  {
    q := Q4("What is the first step in incident response?",
            "Preparation", "Detection",
            "Containment", "Recovery",
            "A", "Preparation is the first phase of incident response, establishing policies and tools.");
  }

  // security_plus_knowledge_base.py:442-447
  method D4Q06() returns (q: Question)
    ensures WellFormed(q)
  {
    q := Q4("Which tool is used for network protocol analysis?",
            "Wireshark", "Nmap",
            "Metasploit", "Burp Suite",
            "A", "Wireshark is a network protocol analyzer used for packet capture and analysis.");
  }

  // security_plus_knowledge_base.py:448-458
  method D4Q07() returns (q: Question)
    ensures WellFormed(q)
  {
    q := Q4("What is the purpose of a honeypot?",
            "Attract and detect attackers", "Encrypt sensitive data",
            "Monitor legitimate users", "Backup critical systems",
            "A", "Honeypots are decoy systems designed to attract and detect attackers.");
  }

  // security_plus_knowledge_base.py:459-464
  method D4Q08() returns (q: Question)
    ensures WellFormed(q)
  {
    q := Q4("Which type of attack overwhelms a system with traffic?",
            "Denial of Service", "Phishing",
            "SQL injection", "Cross-site scripting",
            "A", "DoS attacks overwhelm systems with excessive traffic to make them unavailable.");
  }

  // security_plus_knowledge_base.py:465-475
  method D4Q09() returns (q: Question)
    ensures WellFormed(q)
  {
    q := Q4("What is the purpose of intrusion detection systems (IDS)?",
            "Monitor network for malicious activity", "Encrypt all traffic",
            "Manage user accounts", "Backup data",
            "A", "IDS monitors network or system activities for malicious violations or policies.");
  }

  // security_plus_knowledge_base.py:476-481
  method D4Q10() returns (q: Question)
    ensures WellFormed(q)
  {
    q := Q4("Which phase of incident response involves stopping the spread?",
            "Containment", "Detection",
            "Eradication", "Recovery",
            "A", "Containment involves isolating affected systems to prevent further damage.");
  }

  // security_plus_knowledge_base.py:482-492
  method D4Q11() returns (q: Question)
    ensures WellFormed(q)
  {
    q := Q4("What is the purpose of security baselines?",
            "Establish minimum security standards", "Monitor network traffic",
            "Encrypt data", "Backup systems",
            "A", "Security baselines define the minimum level of security required for systems.");
  }

  // security_plus_knowledge_base.py:493-498
  method D4Q12() returns (q: Question)
    ensures WellFormed(q)
  {
    q := Q4("Which tool is primarily used for vulnerability scanning?",
            "Nessus", "Wireshark",
            "Metasploit", "John the Ripper",
            "A", "Nessus is a widely used vulnerability scanner for identifying security weaknesses.");
  }

  // security_plus_knowledge_base.py:499-509
  method D4Q13() returns (q: Question)
    ensures WellFormed(q)
  {
    q := Q4("What is the purpose of security information and event management?",
            "Real-time monitoring and analysis", "Data encryption",
            "User authentication", "System backup",
            "A", "SIEM provides real-time monitoring, correlation, and analysis of security events.");
  }

  // security_plus_knowledge_base.py:510-515
  method D4Q14() returns (q: Question)
    ensures WellFormed(q)
  {
    q := Q4("Which type of testing examines code without executing it?",
            "Static analysis", "Dynamic analysis",
            "Penetration testing", "Vulnerability scanning",
            "A", "Static analysis examines code for vulnerabilities without running it.");
  }

  // security_plus_knowledge_base.py:516-526
  method D4Q15() returns (q: Question)
    ensures WellFormed(q)
  {
    q := Q4("What is the purpose of security orchestration?",
            "Automate security tasks and workflows", "Encrypt all communications",
            "Monitor user activity", "Backup critical data",
            "A", "Security orchestration automates and coordinates security tasks across multiple tools.");
  }

  /** The "domain_5" list (security_plus_knowledge_base.py:528-654). */
  method Domain5Questions() returns (qs: seq<Question>)
    ensures |qs| == 15 && AllWellFormed(qs)
  {
    qs := [];
    var q01 := D5Q01(); AppendWellFormed(qs, q01); qs := qs + [q01];
    var q02 := D5Q02(); AppendWellFormed(qs, q02); qs := qs + [q02];
    var q03 := D5Q03(); AppendWellFormed(qs, q03); qs := qs + [q03];
    var q04 := D5Q04(); AppendWellFormed(qs, q04); qs := qs + [q04];
    var q05 := D5Q05(); AppendWellFormed(qs, q05); qs := qs + [q05];
    var q06 := D5Q06(); AppendWellFormed(qs, q06); qs := qs + [q06];
    var q07 := D5Q07(); AppendWellFormed(qs, q07); qs := qs + [q07];
    var q08 := D5Q08(); AppendWellFormed(qs, q08); qs := qs + [q08];
    var q09 := D5Q09(); AppendWellFormed(qs, q09); qs := qs + [q09];
    var q10 := D5Q10(); AppendWellFormed(qs, q10); qs := qs + [q10];
    var q11 := D5Q11(); AppendWellFormed(qs, q11); qs := qs + [q11];
    var q12 := D5Q12(); AppendWellFormed(qs, q12); qs := qs + [q12];
    var q13 := D5Q13(); AppendWellFormed(qs, q13); qs := qs + [q13];
    var q14 := D5Q14(); AppendWellFormed(qs, q14); qs := qs + [q14];
    var q15 := D5Q15(); AppendWellFormed(qs, q15); qs := qs + [q15];
  }

  // security_plus_knowledge_base.py:529-534
  method D5Q01() returns (q: Question)
    ensures WellFormed(q)
  {
    q := Q4("Which law regulates healthcare data protection in the US?",
            "HIPAA", "GDPR",
            "SOX", "PCI DSS",
            "A", "HIPAA protects healthcare information and sets standards for its security.");
  }

  // security_plus_knowledge_base.py:535-545
  method D5Q02() returns (q: Question)
    ensures WellFormed(q)
  {
    q := Q4("What is the primary purpose of data classification?",
            "Organize data by sensitivity", "Encrypt all data",
            "Delete old data", "Backup data",
            "A", "Data classification organizes information based on sensitivity and protection requirements.");
  }

  // security_plus_knowledge_base.py:546-551
  method D5Q03() returns (q: Question)
    ensures WellFormed(q)
  {
    q := Q4("Which regulation governs credit card data protection?",
            "PCI DSS", "HIPAA",
            "FERPA", "GLBA",
            "A", "PCI DSS sets standards for protecting credit card data.");
  }

  // security_plus_knowledge_base.py:552-562
  method D5Q04() returns (q: Question)
    ensures WellFormed(q)
  {
    q := Q4("What is the purpose of data retention policies?",
            "Define how long to keep data", "Encrypt sensitive data",
            "Monitor network traffic", "Block unauthorized access",
            "A", "Data retention policies specify how long different types of data should be kept.");
  }

  // security_plus_knowledge_base.py:563-568
  method D5Q05() returns (q: Question)
    ensures WellFormed(q)
  {
    q := Q4("Which privacy regulation applies to EU citizens' data?",
            "GDPR", "HIPAA",
            "SOX", "FERPA",
            "A", "GDPR protects personal data of EU citizens and has global impact.");
  }

  // security_plus_knowledge_base.py:569-579
  method D5Q06() returns (q: Question)
    ensures WellFormed(q)
  {
    q := Q4("What is the primary goal of risk management?",
            "Identify and mitigate risks", "Eliminate all risks",
            "Ignore minor risks", "Transfer all risks",
            "A", "Risk management aims to identify, assess, and mitigate risks to acceptable levels.");
  }

  // security_plus_knowledge_base.py:580-585
  method D5Q07() returns (q: Question)
    ensures WellFormed(q)
  {
    q := Q4("Which law regulates financial reporting and corporate governance?",
            "Sarbanes-Oxley Act", "HIPAA",
            "GDPR", "FERPA",
            "A", "SOX establishes requirements for financial reporting and internal controls.");
  }

  // security_plus_knowledge_base.py:586-596
  method D5Q08() returns (q: Question)
    ensures WellFormed(q)
  {
    q := Q4("What is the purpose of a business impact analysis (BIA)?",
            "Identify critical business functions", "Encrypt sensitive data",
            "Monitor network traffic", "Backup systems",
            "A", "BIA identifies and prioritizes critical business functions and their dependencies.");
  }

  // security_plus_knowledge_base.py:597-602
  method D5Q09() returns (q: Question)
    ensures WellFormed(q)
  {
    q := Q4("Which type of risk involves financial loss?",
            "Financial risk", "Operational risk",
            "Strategic risk", "Compliance risk",
            "A", "Financial risk involves potential monetary losses from various sources.");
  }

  // security_plus_knowledge_base.py:603-613
  method D5Q10() returns (q: Question)
    ensures WellFormed(q)
  {
    q := Q4("What is the purpose of Acceptable Use Policies (AUP)?",
            "Define appropriate technology use", "Encrypt all communications",
            "Monitor user activity", "Backup critical data",
            "A", "AUPs establish rules for acceptable use of organizational technology resources.");
  }

  // security_plus_knowledge_base.py:614-619
  method D5Q11() returns (q: Question)
    ensures WellFormed(q)
  {
    q := Q4("Which regulation protects student education records?",
            "FERPA", "HIPAA",
            "GDPR", "SOX",
            "A", "FERPA protects the privacy of student education records.");
  }

  // security_plus_knowledge_base.py:620-630
  method D5Q12() returns (q: Question)
    ensures WellFormed(q)
  {
    q := Q4("What is the purpose of due care in security?",
            "Implement appropriate security measures", "Guarantee complete security",
            "Monitor all activity", "Encrypt all data",
            "A", "Due care involves taking responsible security measures to protect assets.");
  }

  // security_plus_knowledge_base.py:631-636
  method D5Q13() returns (q: Question)
    ensures WellFormed(q)
  {
    q := Q4("Which concept requires organizations to protect sensitive data?",
            "Due diligence", "Due care",
            "Risk acceptance", "Risk avoidance",
            "A", "Due diligence involves understanding and identifying risks before implementing controls.");
  }

  // security_plus_knowledge_base.py:637-647
  method D5Q14() returns (q: Question)
    ensures WellFormed(q)
  {
    q := Q4("What is the primary purpose of disaster recovery planning?",
            "Restore operations after disruption", "Prevent all disasters",
            "Monitor daily operations", "Encrypt data",
            "A", "Disaster recovery planning focuses on restoring critical operations after disruptions.");
  }

  // security_plus_knowledge_base.py:648-653
  method D5Q15() returns (q: Question)
    ensures WellFormed(q)
  {
    q := Q4("Which law governs financial institutions' data protection?",
            "GLBA", "HIPAA",
            "FERPA", "SOX",
            "A", "GLBA (Gramm-Leach-Bliley Act) regulates how financial institutions handle customer data.");
  }

  /**
   * `DOMAIN_PRACTICE_QUESTIONS`, built as the module builds it when imported:
   * five keys in the order domain_1 .. domain_5, each with its literal list.
   */
  method DomainPracticeQuestions() returns (bank: Dict<seq<Question>>)
    ensures Keys(bank) == DomainIds()
    ensures forall i :: 0 <= i < |bank| ==> |bank[i].1| == 15 && AllWellFormed(bank[i].1)
  {
    var d1 := Domain1Questions();
    var d2 := Domain2Questions();
    var d3 := Domain3Questions();
    var d4 := Domain4Questions();
    var d5 := Domain5Questions();
    bank := [("domain_1", d1), ("domain_2", d2), ("domain_3", d3), ("domain_4", d4), ("domain_5", d5)];
  }

  /** The keys of the knowledge base `ALL_DOMAINS` (domains/__init__.py), which supplies the domains' display names. */
  function DomainIds(): seq<string> {
    ["domain_1", "domain_2", "domain_3", "domain_4", "domain_5"]
  }

  /** The concatenation of the lists of a bank, in key order. */
  function Flatten(bank: Dict<seq<Question>>): seq<Question> {
    if bank == [] then [] else Flatten(bank[..|bank| - 1]) + bank[|bank| - 1].1
  }

  /** Sum of the lengths of the lists of a bank. */
  function TotalSize(bank: Dict<seq<Question>>): nat {
    if bank == [] then 0 else TotalSize(bank[..|bank| - 1]) + |bank[|bank| - 1].1|
  }

  /**
   * The module-level loop that builds `PRACTICE_QUESTIONS`: start from the
   * empty list and `extend` it with each domain's list in key order.
   */
  method BuildPracticeQuestions(bank: Dict<seq<Question>>) returns (all: seq<Question>)
    ensures all == Flatten(bank)
  {
    all := [];
    for i := 0 to |bank|
      invariant all == Flatten(bank[..i])
    {
      assert bank[..i + 1][..i] == bank[..i];
      all := all + bank[i].1;
    }
    assert bank[..|bank|] == bank;
  }

  /**
   * Importing the module: `DOMAIN_PRACTICE_QUESTIONS` and then
   * `PRACTICE_QUESTIONS`, with the facts the quiz code relies on.
   */
  method LoadQuestionBank() returns (bank: Dict<seq<Question>>, practice: seq<Question>)
    ensures Keys(bank) == DomainIds()
    ensures forall i :: 0 <= i < |bank| ==> |bank[i].1| == 15 && AllWellFormed(bank[i].1)
    ensures practice == bank[0].1 + bank[1].1 + bank[2].1 + bank[3].1 + bank[4].1
    ensures |practice| == 75 && AllWellFormed(practice)
  {
    bank := DomainPracticeQuestions();
    practice := BuildPracticeQuestions(bank);
    FlattenFive(bank);
    FlattenSize(bank);
    TotalSizeFive(bank);
    forall q | q in practice ensures WellFormed(q) {
      FlattenMembers(bank, q);
    }
  }

  /** A five-key bank flattens to its five lists one after the other. */
  lemma FlattenFive(bank: Dict<seq<Question>>)
    requires |bank| == 5
    ensures Flatten(bank) == bank[0].1 + bank[1].1 + bank[2].1 + bank[3].1 + bank[4].1
  {
    assert bank[..1][..0] == [];
    assert Flatten(bank[..1]) == bank[0].1;
    assert bank[..2][..1] == bank[..1];
    assert Flatten(bank[..2]) == Flatten(bank[..1]) + bank[1].1;
    assert bank[..3][..2] == bank[..2];
    assert Flatten(bank[..3]) == Flatten(bank[..2]) + bank[2].1;
    assert bank[..4][..3] == bank[..3];
    assert Flatten(bank[..4]) == Flatten(bank[..3]) + bank[3].1;
    assert bank[..5][..4] == bank[..4];
    assert bank[..5] == bank;
  }

  lemma TotalSizeFive(bank: Dict<seq<Question>>)
    requires |bank| == 5
    ensures TotalSize(bank) == |bank[0].1| + |bank[1].1| + |bank[2].1| + |bank[3].1| + |bank[4].1|
  {
    assert bank[..1][..0] == [];
    assert TotalSize(bank[..1]) == |bank[0].1|;
    assert bank[..2][..1] == bank[..1];
    assert TotalSize(bank[..2]) == TotalSize(bank[..1]) + |bank[1].1|;
    assert bank[..3][..2] == bank[..2];
    assert TotalSize(bank[..3]) == TotalSize(bank[..2]) + |bank[2].1|;
    assert bank[..4][..3] == bank[..3];
    assert TotalSize(bank[..4]) == TotalSize(bank[..3]) + |bank[3].1|;
    assert bank[..5][..4] == bank[..4];
    assert bank[..5] == bank;
  }

  /** The flattened pool is as long as all the lists together. */
  lemma {:induction false} FlattenSize(bank: Dict<seq<Question>>)
    ensures |Flatten(bank)| == TotalSize(bank)
  {
    if bank != [] {
      FlattenSize(bank[..|bank| - 1]);
    }
  }

  /** A question is in the flattened pool exactly when it is in one of the lists. */
  lemma {:induction false} FlattenMembers(bank: Dict<seq<Question>>, q: Question)
    ensures q in Flatten(bank) <==> exists i :: 0 <= i < |bank| && q in bank[i].1
  {
    if bank != [] {
      var init := bank[..|bank| - 1];
      FlattenMembers(init, q);
      assert forall i :: 0 <= i < |init| ==> init[i] == bank[i];
      if q in Flatten(bank) && q !in bank[|bank| - 1].1 {
        assert q in Flatten(init);
      }
    }
  }
}
