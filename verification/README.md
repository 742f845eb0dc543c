# Verified model of the key-material protocol

The program creates one Ed25519 key inside an enclave, wraps it under two KMS keys, publishes the result in a
write-once object store, and later recovers it from either wrapping. This project models that protocol and proves
what it keeps.

`dafny verify dfyconfig.toml` checks everything.

## How the model is built

| module | what it models |
|---|---|
| `Commit` | Any number of initialisers, each a small state machine, over one shared store. Their interleavings, crashes, lost acknowledgements and late writes are lists of actions; a disabled action does nothing, so every list is a run. |
| `Retry` | The retrying S3 client, run inside a `Climate`: what other parties do before each operation, and how each operation fares. The functions `LoadRun` and `SaveRun` say what the loops of class `S3Client` compute. |
| `Broker` | The gates of one connection, all threads of a broker together, and class `Server`, which serves one connection through `S3Client`. |
| `Restore`, `Initialise`, `StepOrder` | The two enclave procedures as functions of a session. A session records the actions it took part in, so that every call is a run of `Commit`. |
| `Enclave` | The imperative program: `RunProcess`, the loops over the KMS keys, and the requests to the broker, each proved equal to the functions of `Restore` and `Initialise`. |
| `KeyMaterial` | Documents, settings, validation, wrapping and unwrapping. |
| `ObjectNames`, `KmsArn`, `Directories`, `EncryptionContext`, `Frames`, `Base64`, `Hex` | The name grammar and the codecs, over the string operations of `Text`. |
| `NativeBuffers` | Memory ownership across the C shim and its Rust caller. |

A step of `Commit` is one S3 or KMS operation or one broker request. A write is first *admitted* (the broker has
it) and may *land* at any later moment, whatever has become of the process that sent it: that one mechanism stands
for broker threads that outlive their client, for puts applied with a lost answer, and for retries. `Stop` stands both
for a crash and for an error return. `Outside` lets any other party add an object.

## What is assumed

* Store: a conditional put is atomic, nothing is deleted or overwritten, and reads see completed writes.
* `World` holds the libraries as functions. The laws used (`KeyMaterial.Lawful`) are that the three JSON documents
  read back what was rendered, and that opening undoes sealing for the same key and nonce. AES-GCM is that of section 7
  of NIST SP 800-38D, public-key derivation that of section 5.1.5 of RFC 8032, SHA-256 that of FIPS 180-4.
* SHA-256 is any function to 32 bytes. Only the re-run theorems ask for freedom from collisions, and only among the
  values hashed by initialisers in that run. Commit, agreement, soundness and availability need no such hypothesis.
* A site is *working* (`Initialise.Working`) when the broker and KMS answer, KMS decrypts what it generated, and
  connections to S3 recover within the four attempts. Other processes may do anything meanwhile.
* Theorems about the protocol are stated for runs in which outside parties may add any object but one named like a
  manifest (`Commit.Trusted`); the re-run theorems also ask that nothing else occupies the name of a leaf. Restore
  soundness and the retry and broker theorems hold for any contents of the store and any interference.

## What the code does not do

* Configuration checking accepts an ARN whose key id has no storage name, for example `key/my_key`; initialisation
  refuses it only later. `KmsArn.ValidatedArnWithoutStorageName` is such an input, and
  `Initialise.WorkingInitialisationExact` gives the exact condition under which accepted settings can initialise.
* The repository's README (line 80, and docs/STARTUP.md line 68) says that one key id in different accounts does not
  conflict in the directory name, because the first 12 hexadecimal digits of the digest of the full ARN are part of it.
  That is 48 bits: `Directories.DirectoriesCollide` shows that, whatever the hash, one key id in some two different
  accounts, for account fields as the code accepts them, shares a directory, and `Directories.SharedDirectory` says
  exactly when. What keeps packages apart is the full content hash in the file name, on which
  `Commit.LeafNeverConflicts` rests.
* Nothing stops two initialisers for one prefix from both generating keys and writing packages
  (`Commit.RivalsCanBothWrite`). `Commit.Agreement` shows that all that succeed report one key.

## Model

| member | source | states |
|---|---|---|
| `Commit.StepKeepsInv` | src/key_material.rs:281-356 | Every single step of any process, broker thread, landing write or outside party that does not forge a manifest keeps the global invariant: each stored object has a recorded origin, every own write in flight and every process has all the objects it relies on already in the store. |
| `Commit.RunKeepsInv` | src/key_material.rs:243-367 | The invariant holds in every state of every run, for any number of initialisers, prefixes, crashes and late writes. |
| `Commit.LandKeepsInv` | src/key_material.rs:729-789 | A conditional write landing late, repeatedly or after its client has died keeps the invariant. |
| `Commit.VisibleManifestIsComplete` | src/key_material.rs:281-356 | Commit: in every reachable state a visible manifest means that the public document and both packages are present with the recorded digests and that both packages unwrap to a private key of the manifest's public key, for the settings of one initialiser. |
| `Commit.StoredManifestIsComplete` | src/key_material.rs:338-356 | The manifest as written, once stored, parses, validates, and points at a complete key set. |
| `Commit.ManifestOrigin` | src/key_material.rs:338-356 | The object under the manifest name can only have been written by an initialiser of exactly this prefix. |
| `Commit.Agreement` | src/key_material.rs:350-366 | Over whole runs, any two initialisers that return success for one prefix, at whatever moments, report the same public key, and it is the one the store publishes. |
| `Commit.LateInitialiserRefuses` | src/key_material.rs:253-263 | Once a manifest is visible, even one whose writer never learnt so, a process started later never passes its check in any continuation. |
| `Commit.LeafNeverConflicts` | src/key_material.rs:301-325 | Content addressing: an admitted package or public document never meets different content under its name, unless two values of the run collide or an outside party has occupied the name. |
| `Commit.ItemKeysSpelledOut` | src/key_material.rs:277-308 | The names of manifest, public document and package, spelled out; the package name carries the digest of its own ARN and of its own body. |
| `Commit.RivalsCanBothWrite` | src/key_material.rs:253-310 | For any two keys, a state is reachable in which two initialisers of one prefix have passed the check, generated and are writing packages. |
| `Commit.PublishedKeyStable` | src/key_material.rs:750-764 | What a store publishes under a prefix never changes in any extension of the store. |
| `Commit.RunExtends` | src/key_material.rs:740-748 | In every run, outside writes included, objects are only ever added. |
| `Retry.SaveMeaning` | src/key_material.rs:729-789 | The retry loop refines one atomic "insert if absent, or confirm equal", under any interference and any pattern of lost answers. |
| `Retry.SaveFrame` | src/key_material.rs:729-789 | Whatever the outcome, an object that appears during a save is this call's own, with exactly its body, or was landed by somebody else's action. |
| `Retry.CalmSave` | src/key_material.rs:750-764 | Without interference the save is that atomic operation, and it succeeds if and only if the name is free or holds the same body. |
| `Retry.SaveAttempts` | src/key_material.rs:736-788 | Only a lost connection is retried; a save succeeds exactly when its last put is answered and either the name was free then, or the last get of the following load is answered and finds this body. |
| `Retry.SaveToleratesThree` | src/key_material.rs:736-788 | The same for puts: at most three lost ones in front of an answered one, which decides, successfully if the name is free; four lost puts are an error after four. |
| `Retry.RecoveringSave` | src/key_material.rs:750-764 | When connections recover within four attempts, a save succeeds exactly if its body is what the key holds in the end, whoever put it there. |
| `Retry.LostAnswerIsRepeated` | src/key_material.rs:752-764 | The retry after a put that was applied while its answer was lost succeeds. |
| `Retry.LoadMeaning` | src/key_material.rs:705-727 | A successful load reports the object, or its absence, as the store is when the load returns. |
| `Retry.LoadAttempts` | src/key_material.rs:710-725 | Only a lost connection is retried, at most three times; the load succeeds exactly when its last attempt is answered. |
| `Retry.LoadToleratesThree` | src/key_material.rs:710-725 | Exactly three lost gets are tolerated: with at most three in front an answered get gives the object and a failed one the error, each at once; four lost gets are an error after four. |
| `Retry.OperationBounds` | src/key_material.rs:710-788 | A load issues at most 4 gets, a save at most 4 puts and 4 gets; at most 1500 ms and 3000 ms of backoff. |
| `Retry.SaveCosts` | src/key_material.rs:736-793 | The backoff of a save is exactly that of its put attempts plus that of the one load after a 412. |
| `Retry.BackoffClosedForm` | src/key_material.rs:791-793 | n attempts sleep 250*n*(n-1)/2 ms in total. |
| `Retry.S3Client.LoadObject` | src/key_material.rs:705-727 | The loop computes `LoadRun` and always returns from within its four attempts. |
| `Retry.S3Client.SaveIfAbsent` | src/key_material.rs:729-789 | The loop computes `SaveRun`; success means the key holds exactly the body; an existing value is never replaced; its only own action is to land its write. |
| `Broker.BrokerFrame` | src/lib.rs:651-752 | Over all request sequences and thread interleavings: nothing changes or disappears, each event adds at most one absent key below the prefix, requested by an allowed peer in init-key mode, and a serve-mode broker never changes the store. |
| `Broker.RunInvariant` | src/lib.rs:651-752 | Everything a thread was allowed to write and everything the store gained was requested with exactly that body. |
| `Broker.DispatchExact` | src/lib.rs:658-736 | For each effect exactly the peer, mode, target and request that allow it; a provider is asked only for a slot that has one, and its credentials are for the region of the first key of that slot, or for none. |
| `Broker.Server.Handle` | src/lib.rs:658-750 | Serving one connection: a refusal leaves everything as it was, a load reports the store, a save is `ServeSave` of the one object that passed the gates and succeeds only if it is stored, credentials are sent only if the provider answers and the slot has a key; among threads of the same broker the effect on the store is a run of the event machine. |
| `Broker.ServedSaveIsOwnSave` | src/lib.rs:717-733 | Serving the request that carries an item has the same result, operations and effect on the store as the save of that item in the protocol: its origin does not matter. |
| `Broker.RunSimulates` | src/lib.rs:651-752 | Any interleaving of what threads do to the store, retried and late puts included, is a run of the event machine that `Broker.BrokerFrame` is about. |
| `Restore.RestoreLoopMeetsSpec` | src/key_material.rs:408-451 | The fallback loop returns the least index in settings order whose attempt succeeds and issues nothing for later keys; otherwise it fails with exactly one failure per key, in order, a missing reference counting for that key only. |
| `Restore.RestoreSound` | src/key_material.rs:388-439 | For any contents of the store, success means that a configured key's package unwrapped to a private key of the returned public key, which is the published one and has the manifest's fingerprint. |
| `Restore.JustifiedPrivateKey` | src/key_material.rs:476-494 | Behind a restored key pair there is a package that decrypts, under that key and context, to a private key deriving the returned public key. |
| `Restore.RestoresAgree` | src/key_material.rs:369-452 | Over a write-once history all successful restores under a prefix return the same public key, whatever their settings, climate and broker. |
| `Restore.AnyOneKeySuffices` | src/key_material.rs:408-451 | With a complete key set stored, settings sharing one working ARN restore exactly the committed key, whatever fails for the other key and with up to three lost connections in a row per object. |
| `Restore.CommittedKeyIsAvailable` | src/key_material.rs:369-496 | The same from every reachable state of the protocol in which a manifest is visible. |
| `Restore.ClientLoadMeaning` | src/key_material.rs:67-75 | A load through the broker only watches, and what it reports is in the store when it returns. |
| `Restore.ClientLoadExact` | src/lib.rs:706-716 | A load through the broker succeeds exactly if it is answered, from an allowed peer, for this bucket and below the prefix, and the broker's own load succeeds. |
| `Restore.MissingManifestIsReported` | src/key_material.rs:379-387 | Without a manifest a serving process ends with that error and tries no key. |
| `Initialise.InitialiseMeaning` | src/key_material.rs:243-367 | Every call of the initialiser is a run of the protocol; success is its committed state, failure its stopped state; with a manifest visible or a serve-mode broker it always fails and writes nothing. |
| `Initialise.InitialisedKeyIsPublished` | src/key_material.rs:350-366 | Under interference by any other trusted processes, what the initialiser returns is published with a complete key set. |
| `Initialise.FaultFreeInitialisationSucceeds` | src/key_material.rs:253-325 | Safe re-run: from every reachable state without a manifest, initialisation at a working site returns its key, whatever orphans exist, whatever late writes land and other initialisers do during the re-run, and with connections to S3 lost up to three times in a row, provided no rival manifest lands. |
| `Initialise.CommitIsReachable` | src/key_material.rs:243-367 | For every seed and all settings with storage names some trusted run from the empty system commits that key, so the states of the safety theorems exist. |
| `Initialise.WorkingInitialisationExact` | src/key_material.rs:498-520 | Under the same conditions, accepted settings initialise if and only if both ARNs have a storage name. |
| `Initialise.ContestedInitialisationExact` | src/key_material.rs:253-367 | Without any restriction on rivals, or on what is stored before, initialisation at a working site succeeds if and only if both ARNs have a storage name and the manifest in the store is in the end its own. |
| `Initialise.UnnamedArnNeverInitialises` | src/key_material.rs:301-306 | However the surroundings behave, initialising never succeeds with an ARN that has no storage name. |
| `Initialise.QuietAddsNothing` | src/lib.rs:715-722 | A process whose writes are not admitted adds nothing: whatever appears meanwhile was landed by others. |
| `Initialise.GenerateExact` | src/key_material.rs:282-306 | A data key is used exactly if KMS answers with this very key ID and a key of 16 or 32 bytes, and the ARN has a storage name. |
| `Initialise.DataKeysAreOfTheirArn` | src/key_material.rs:283-293 | Every data key that a run of initialisation wraps with was answered by KMS during that run for exactly that key ID, with the nonce drawn for it. |
| `Initialise.VisibleManifestIsReported` | src/key_material.rs:253-263 | With a manifest in the store, an initialiser whose check is answered ends with that refusal. |
| `Initialise.SaveItemGated` | src/lib.rs:717-729 | A save from a peer that is not allowed, outside init-key mode, for another bucket or outside the prefix has no effect at all. |
| `Initialise.LostSaveStaysInFlight` | src/lib.rs:750-752 | A request whose answer is lost after the broker took it on leaves its write in flight, to land at any later moment. |
| `StepOrder.SuccessfulStepsInOrder` | src/key_material.rs:243-367 | A successful initialisation takes exactly these steps in this order, whatever others do in between: check; twice generate, save, verify, try; save and verify the public document; save the manifest. |
| `Initialise.SaveItemMeaning` | src/key_material.rs:77-86 | A save through the broker either ends with exactly this item stored and acknowledged, or leaves the process unfinished. |
| `Initialise.SaveItemIsServed` | src/key_material.rs:77-86 | A save that reaches the broker and is answered is, in store and result, what the broker makes of the request. |
| `Initialise.VerifyItemMeaning` | src/key_material.rs:555-566 | Verification after upload passes only when the store holds, under that name, an object with the digest of the item, and otherwise leaves the process unfinished. |
| `Initialise.PackageMeaning` | src/key_material.rs:281-325 | One round of the loop adds one reference and never commits; an error leaves the process uncommitted. |
| `Initialise.PublishMeaning` | src/key_material.rs:327-356 | Publication succeeds only as the committed state, with public document and manifest stored exactly as written. |
| `Enclave.ProcessMeaning` | src/bin_support.rs:29-58 | The process serves only in serve mode after a justified restore; an unknown command, refused or unanswered settings, or an invalid configuration end it before any S3 or KMS operation; initialising always exits; overridden to init-key against a serve-mode broker it fails and writes nothing. |
| `Enclave.CommandsMean` | src/bin_support.rs:36-46 | `serve` only ever restores and writes nothing, whatever the broker's mode; `init-key` only ever initialises; no command leaves it to the broker's mode; any other command is an error. |
| `Enclave.InitialisedKeyIsServed` | src/bin_support.rs:35-58 | End to end: after a successful initialisation and any later events, outside writes included, a process with one working key in common reaches serving with exactly that key. |
| `Enclave.EquippedProcessServes` | src/key_material.rs:208-237 | A process that finds a complete key set and shares one working ARN serves that key. |
| `Enclave.CompleteKeySetStable` | src/key_material.rs:281-356 | A complete key set stays complete in every extension of the store. |
| `Enclave.Enclave.LoadObject` | src/key_material.rs:67-75 | The request computes `ClientLoad` and only watches the store. |
| `Enclave.Enclave.SaveObjectIfAbsent` | src/key_material.rs:77-86 | The request computes `SaveItemRun`; success means the key holds exactly the body. |
| `Enclave.Enclave.VerifyUploadedObject` | src/key_material.rs:555-566 | Success means that the store holds an object of the expected digest under the key, and moves the process on; an error leaves it unfinished. |
| `Enclave.Enclave.GenerateDataKey` | src/key_material.rs:282-306 | Success is exactly an answer for this key ID with a key of 16 or 32 bytes, for an ARN with a storage name; it leaves the process ready to write the returned package, which restores this process's key if KMS decrypts what it generated. |
| `Enclave.Enclave.RestoreFromPackage` | src/key_material.rs:454-496 | KMS is asked once, and only for a well-formed package; success is exactly that KMS answers and the package unwraps to a private key of the expected public key. |
| `Enclave.Enclave.WritePackage` | src/key_material.rs:281-325 | The body of the loop computes `PackageRun` and returns the reference that the protocol records. |
| `Enclave.Enclave.Publish` | src/key_material.rs:327-356 | The public document and then the manifest over the collected references compute `PublishRun`. |
| `Enclave.Enclave.WriteAll` | src/key_material.rs:280-356 | The loop that pushes references computes `WriteAllRun`. |
| `Enclave.Enclave.InitialiseKeyMaterial` | src/key_material.rs:243-367 | Success is the committed state with these settings and this seed, and reports its key; an error is the stopped state; with a visible manifest or a serve-mode broker it fails and writes nothing. |
| `Enclave.Enclave.AttemptWithKey` | src/key_material.rs:409-431 | Success means that the found reference is recoverable from the store; a missing reference fails without any operation. |
| `Enclave.Enclave.TryKeys` | src/key_material.rs:408-451 | The loop that pushes failures meets `LoopSpec`. |
| `Enclave.Enclave.RestoreKeyMaterial` | src/key_material.rs:369-452 | The whole procedure computes `RestoreRun`; success is justified by the store. |
| `Enclave.Enclave.RunProcess` | src/bin_support.rs:29-58 | The process computes `ProcessRun`, serves exactly on a justified restore, adds nothing unless told to initialise by both ends, and obeys its commands as `CommandsMean` says. |
| `KeyMaterial.RestoreFromPackageExact` | src/key_material.rs:454-496 | Restoring from a package succeeds if and only if it decrypts, through base64, lengths, KMS and AES-GCM, to a private key of the expected public key. |
| `KeyMaterial.BuiltPackageRestores` | src/lib.rs:817-855 | A package built from a 16- or 32-byte data key that KMS decrypts back restores to the same public key. |
| `KeyMaterial.DataKeyLengths` | src/lib.rs:817-864 | Data keys of 16 and 32 bytes are used and others refused, for encryption and decryption alike, and decryption undoes encryption. |
| `KeyMaterial.WrittenPublicDocumentValidates` | src/key_material.rs:540-553 | The document that initialisation writes validates against the manifest that it writes, yielding the key. |
| `KeyMaterial.AcceptedPublicDocument` | src/key_material.rs:540-553 | A public document is accepted, with the key returned, exactly if it is the one written for that key and the digest of the key is the manifest's fingerprint. |
| `KeyMaterial.PublicBodyInjective` | src/key_material.rs:269-276 | Equal public documents carry equal keys. |
| `KeyMaterial.ConfigurationExact` | src/key_material.rs:498-520 | Start-up accepts exactly two different full ARNs configured for one region. |
| `KeyMaterial.WrittenManifestValidates` | src/key_material.rs:522-538 | The manifest that initialisation writes has version 2, policy `any-one` and the two algorithms, is accepted exactly for two references, and an accepted manifest can differ from it only in fingerprint and in the objects it names. |
| `ObjectNames.ParseRender` | src/key_material.rs:613-615 | A generated key determines its prefix, kind, storage id, display id and hash. |
| `ObjectNames.RenderInjective` | src/key_material.rs:277-308 | Two generated keys are equal only if all parts are, so deployments under different prefixes never meet, nested ones included. |
| `ObjectNames.PackageNameWellFormed` | src/key_material.rs:607-611 | Every accepted ARN gives a well-formed package name, the 12-character slice in range and the storage id ending in it. |
| `ObjectNames.NormalizeIdempotent` | src/lib.rs:954-963 | An accepted prefix is the slash-free core of the input without `..` components, and normalising it again changes nothing. |
| `ObjectNames.NormalizeExact` | src/lib.rs:954-963 | For every input: slashes around a core are dropped, the core is accepted exactly if `/../` does not occur in it with a slash put at each end, and slashes alone are refused. |
| `ObjectNames.OwnKeysAllowed` | src/lib.rs:801-815 | For every accepted raw prefix and ARN, all three kinds of key are strictly below the prefix and pass the broker's check. |
| `KmsArn.RegionReaderExact` | src/lib.rs:965-988 | An accepted ARN composes from five colon-free fields and a key part, and `nth(4)` is its account, so the `expect` cannot fail. |
| `KmsArn.RegionReaderAccepts` | src/lib.rs:965-988 | Conversely, a composed ARN is accepted exactly when region and account are non-empty, and gives them back. |
| `KmsArn.DisplayReaderExact` | src/key_material.rs:585-605 | The display id is read exactly when the key id is non-empty, of letters, digits and hyphens, and no earlier field starts with `key/`; it is the last eight characters, or the whole of a shorter key id. |
| `KmsArn.ReadersAgree` | src/key_material.rs:585-605 | Whenever both readers accept, the ARN has exactly five colons and one decomposition, which both read. |
| `KmsArn.ValidatedArnWithoutStorageName` | src/key_material.rs:607-611 | An ARN that configuration checking accepts and package naming refuses. |
| `Directories.SharedDirectory` | src/key_material.rs:607-611 | Two ARNs share a package directory exactly if their display ids and the first 48 bits of their digests agree. |
| `Directories.DirectoriesCollide` | src/key_material.rs:607-611 | Whatever the hash, one and the same key id in some two different accounts, both ARNs accepted, gives one directory. |
| `EncryptionContext.ParseContext` | src/lib.rs:905-925 | The loop inserts item by item and stops at the first bad item. |
| `EncryptionContext.InsertItemsOutcome` | src/lib.rs:905-925 | Success is exactly "every item is good"; an error is that of the first bad item. |
| `EncryptionContext.ParseItemWith` | src/lib.rs:909-921 | An item is split at its first equals sign, refused exactly if a side is blank, and otherwise gives both sides without the white space around. |
| `EncryptionContext.ParseItemWithout` | src/lib.rs:909-911 | An item without an equals sign is refused. |
| `Text.WhitespaceExact` | src/lib.rs:912-913 | What is trimmed are the code points of the Unicode White_Space property. |
| `EncryptionContext.ParsePrintedContext` | src/lib.rs:905-934 | Any printing of a finite map, in any order, with repetitions, padding and empty items, parses back to it. |
| `EncryptionContext.DenoteKeys` | src/lib.rs:921-921 | For a repeated key the last item wins. |
| `Frames.ReadAllFrames` | src/lib.rs:475-508 | The concatenated frames of a list decode to that list, in order, and leave what follows untouched. |
| `Frames.ReadAllCut` | src/lib.rs:494-508 | Cutting the stream anywhere yields exactly the complete frames and then an error. |
| `Frames.CompleteIsMaximal` | src/lib.rs:494-508 | "Complete" is the largest number of whole frames before the cut. |
| `Frames.BigEndianRoundTrip` | src/lib.rs:487-499 | The four header bytes give the length back. |
| `Frames.HeaderIsNumber` | src/lib.rs:487-499 | The header is the length in four bytes, the highest first, in both directions. |
| `Frames.ReadFrameExact` | src/lib.rs:494-508 | Reading succeeds exactly on such a header, a payload of the announced length of at most 1048576 bytes that parses, and leaves the rest. |
| `Frames.DecimalSpells` | src/lib.rs:217-228 | Each byte of a body is written as its decimal value without a leading zero (section 6 of RFC 8259). |
| `Frames.OversizedHeader` | src/lib.rs:494-505 | A header that announces too much is refused whatever follows it, before any payload is read. |
| `Frames.Wire.WriteFrame` | src/lib.rs:475-492 | An oversized value writes nothing; any other appends exactly its frame; the length conversion cannot fail. |
| `Frames.Wire.ReadNext` | src/lib.rs:494-508 | Reading consumes exactly one frame, with the length checked before the payload. |
| `Frames.ByteArraySize` | src/lib.rs:217-228 | A body of n >= 1 bytes takes between 2n + 1 and 4n + 1 characters as a JSON array (section 5 of RFC 8259). |
| `Frames.SavedObjectsAreLoadable` | src/lib.rs:207-231 | If a save request fits the frame limit, so does the load response of the same body. |
| `Base64.DecodeEncode` | src/lib.rs:990-994 | Decoding undoes encoding (section 4 of RFC 4648). |
| `Base64.EncodeDecode` | src/lib.rs:990-994 | Only canonical texts are accepted: an accepted text is the encoding of its value. |
| `Base64.DigitsInOrder` | src/lib.rs:990-994 | The alphabet is that of table 1 of RFC 4648, in order. |
| `Base64.GroupIsNumber` | src/lib.rs:990-994 | Three bytes are one number of 24 bits, written in four digits, the highest first. |
| `Base64.RestIsNumber` | src/lib.rs:990-994 | A rest of one or two bytes is filled up with zero bits and the text with padding. |
| `Base64.EncodeAt` | src/lib.rs:990-994 | The groups stand in the order of the bytes, the rest last. |
| `Hex.WriteHex` | src/key_material.rs:576-583 | The digest loop writes two digits per byte, and they read back to the digest. |
| `Hex.EncodeInjective` | src/key_material.rs:576-583 | Different digests have different hexadecimal forms. |
| `Hex.EncodeAt` | src/key_material.rs:576-583 | Each byte gives two lower-case digits, the high half first. |
| `NativeBuffers.FreedExactlyOnce` | native/nitro_kms_shim.c:253-260 | In a proper ledger a block that is no longer live was freed exactly once, and a live one never. |
| `NativeBuffers.CopyBuffer` | native/nitro_kms_shim.c:47-60 | A copy owns a new block with exactly the bytes, or is null: after failure, and for an empty source; it fails only if the allocation does. |
| `NativeBuffers.ClientState.CleanClient` | native/nitro_kms_shim.c:62-75 | In whatever state of construction, clean-up releases exactly what the client holds, keeps blocks beside it, and closes the library once. |
| `NativeBuffers.ClientState.InitClient` | native/nitro_kms_shim.c:77-135 | Either everything is built and the library stays open, or nothing is left of it; it succeeds if no call fails. |
| `NativeBuffers.GenerateDataKey` | native/nitro_kms_shim.c:137-191 | At every failure point nothing stays live and both buffers are null; success leaves exactly two buffers with the bytes of the SDK; the library is closed either way; if no call fails, success is exactly a request for 128 or 256 bits. |
| `NativeBuffers.DecryptDataKey` | native/nitro_kms_shim.c:193-251 | Likewise for decryption, with and without a context; it succeeds if no call fails. |
| `NativeBuffers.BufferFree` | native/nitro_kms_shim.c:253-260 | Frees a non-null buffer and clears it, and leaves null alone. |
| `NativeBuffers.TakeNativeBuffer` | src/nitro_kms.rs:228-236 | Returns the bytes, gives the block back and leaves the buffer null. |
| `NativeBuffers.GenerateFromRust` | src/nitro_kms.rs:85-127 | Both halves together: every block allocated is freed exactly once whatever fails, the library balances, success returns the bytes of the SDK, and 128 and 256 bits succeed if no call fails. |
| `NativeBuffers.DecryptFromRust` | src/nitro_kms.rs:142-191 | The same for decryption, which succeeds if no call fails. |

## Left out

- Cryptographic strength, randomness and attestation: libraries; only the laws above are used.
- Concrete JSON of the documents: a codec whose parser reads back what was rendered. The texts of the two messages that carry a body are concrete, for the frame limit.
- The frame limit inside the protocol: a request or answer that exceeds it appears as a request that fails.
- Credentials: for an enclave, the request for them and the KMS call they are for form one KMS operation, which may fail. The broker's side, with its gates and a provider that may fail, is `Broker.Server.Handle`; the credentials themselves are only their region.
- Data-key options: KMS may return a key of any length, and the length check decides.
- Sockets, gRPC, runtimes and thread creation: a connection delivers one request and at most one answer.
- `Broker.Server.Handle`: serves one connection; the accept loop, which never ends, is the event machine of `Broker.BrokerRun`.
- The seed and the nonces are parameters of a run; that they are random is not stated.
- The public key is named by its seed from the start of a run, while the program generates it after the manifest check; nothing reads it before that.
- Deletes and overwrites by outside parties: excluded by assumption; restore soundness holds for whatever the store contains.
- Environment, command-line syntax beyond the first argument, log output and error texts: error kinds are kept, wording is not.
- Zeroisation and the life of credentials: not observable here; `NativeBuffers.BufferFree` wipes before it frees, but nothing is stated about it.
- SDK calls in `NativeBuffers`: any of them may fail; what they do beside memory is not modelled. The wrapped key handed to decryption belongs to the caller and is never freed.
- `Commit.LeafNeverConflicts`: assumes no SHA-256 collision among the values of the run and no outside object of other content under the leaf's name, because content addressing rests on both.
- `Initialise.FaultFreeInitialisationSucceeds`: likewise, as do `Initialise.WorkingInitialisationExact`, `Initialise.ContestedInitialisationExact` and `Initialise.CommitIsReachable`.
