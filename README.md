# Blockchain list and wallet keys, modelled in Dafny

This project models the two scripts of an early stage of a Python course project.

- `blockchain.py` keeps a module-level list `blockchain`.
  `add_value(amount, last_transaction=[1])` appends the two-element block `[last_transaction, amount]`.
  The script adds a first transaction and then loops over a text menu.
  Choice `'1'` reads an amount and appends a block whose first component is the current last block.
  Any other choice prints the blocks.
  Every block therefore nests its whole predecessor, and this nesting is the only link between blocks.
- `wallet.py` defines `Wallet` with two optional string fields.
  `create_keys` fills them with fixed prefixes and random identifiers.
  `save_keys` writes `public + "\n" + private` only when both are set.
  `load_keys` reads the file back with `readlines()`.

`blockchain.dfy` models the list as the field `blockchain` of class `Ledger`.
A block is `Link.Blk(prev, amount)`, and `Link.Seed` is the default `[1]`.
The linking invariant `Linked` says that the first block holds `[1]` and block `i` holds block `i - 1`.
`RunScript` runs the first transaction and a finite sequence of menu inputs.
The pure function `Replay` specifies it, and the lemmas prove `Linked` of every chain the script can build.
They also prove that the last block spells out the whole chain (`HistoryOfLast`, `LinkedIffHistory`).

`wallet.dfy` models `Wallet` as a class with `Option<string>` fields.
A file is its text, or `None` when it cannot be opened.
`UniversalNewlines` is how a file opened for reading in text mode delivers its text: `\r\n` and a lone `\r` both read as `\n`.
`ReadLines` is `readlines()` on that text: the text cut after each newline, each line keeping its newline.
`Load` is the state change of `load_keys`, including the partial update on a one-line file.
The round trip `SaveLoadRoundTrip` holds when neither key contains a line break (`\n` or `\r`) and the private key is not empty.
A key holding `\r` does not survive, because the read turns the `\r` into a newline (`CarriageReturnBreaksRoundTrip`). Neither `create_keys` nor `load_keys` ever produces such a key.
With an empty private key the saved text reads back as one line, and the old private key stays (`EmptyPrivateKeyNotRestored`).
Neither `create_keys` (a prefixed key) nor `load_keys` (a whole line, never empty) can produce an empty private key.

The model has no block hashing, proof of work, balances or mining rewards, because `blockchain.py` has none of them.
A failed load does not always leave the keys as they were.
A one-line file still sets `public_key` before the `IndexError`, and the model keeps that behaviour.

## Model

| member | source | states |
|---|---|---|
| `Blockchain.Ledger.constructor` | blockchain.py:2 | the script starts from the empty list |
| `Blockchain.Ledger.GetLastBlockchainValue` | blockchain.py:5-7 | the result is missing exactly when the list is empty (IndexError); otherwise it is the final element; the list is not changed |
| `Blockchain.Ledger.AddValue` | blockchain.py:10-18 | the list grows by exactly the block `[last_transaction, amount]`, earlier blocks unchanged; the default first component is `[1]` |
| `Blockchain.Ledger.PrintBlockchainElements` | blockchain.py:32-36 | the loop outputs every block of the list, in order, and changes nothing |
| `Blockchain.Ledger.MenuStep` | blockchain.py:46-51 | one menu pass: choice "1" appends a block holding the current last block; IndexError exactly when the list is empty; any other choice leaves the list unchanged |
| `Blockchain.Ledger.RunScript` | blockchain.py:39-51 | the first transaction gives `[[[1], tx]]`; after any finite number of menu passes the list is the replayed chain and satisfies the linking invariant |
| `Blockchain.Step` | blockchain.py:46-51 | a menu pass keeps the old chain as a prefix and adds at most one block, which holds the previous last block and the amount |
| `Blockchain.Replay` | blockchain.py:39-40 | the first block of every reachable chain is `[[1], first]` |
| `Blockchain.StepKeepsLinked` | blockchain.py:47-49 | a menu pass on a linked chain never raises and keeps it linked |
| `Blockchain.OtherChoiceKeepsChain` | blockchain.py:50-51 | a choice other than "1" leaves the chain unchanged |
| `Blockchain.ReplayLinked` | blockchain.py:39-51 | linking invariant: `chain[0][0] == [1]` and `chain[i][0] == chain[i-1]` after any sequence of menu passes |
| `Blockchain.ReplayAmounts` | blockchain.py:39-49 | the chain stores the first amount followed by exactly the amounts entered with choice "1", in order |
| `Blockchain.HistoryOfLast` | blockchain.py:49 | the last block of a linked chain nests every earlier block, so it determines the whole chain |
| `Blockchain.HistoryLinked` | blockchain.py:17 | unfolding any block gives a linked chain ending in that block |
| `Blockchain.LinkedIffHistory` | blockchain.py:47-49 | a chain is linked if and only if it is the unfolding of its own last block |
| `Blockchain.LinkedDepths` | blockchain.py:17 | block `i` of a linked chain nests exactly `i + 1` blocks, so no two blocks are equal |
| `Wallet.Wallet.constructor` | wallet.py:4-6 | a new wallet has both keys unset |
| `Wallet.Wallet.CreateKeys` | wallet.py:8-10 | the private key is `"private_key_" + id1` and the public key `"public_key_" + id2` |
| `Wallet.Wallet.SaveKeys` | wallet.py:12-20 | the text written is the save content of the current keys; no field changes |
| `Wallet.SaveContent` | wallet.py:13-18 | something is written exactly when both keys are set, and it is `public + "\n" + private` |
| `Wallet.SaveNeedsBothKeys` | wallet.py:13 | with either key unset nothing is written |
| `Wallet.Wallet.LoadKeys` | wallet.py:22-29 | the new keys and the failure flag are those of `Load` on the old keys and the file |
| `Wallet.UniversalNewlines` | wallet.py:24 | the text as read in text mode holds no `\r`, and text without `\r` reads unchanged |
| `Wallet.ReadLines` | wallet.py:25 | `readlines()` on the text as read: the lines concatenate to the text, none is empty, each but the last ends in a newline, and none has a newline before its end |
| `Wallet.DropLast` | wallet.py:26 | `s[:-1]` removes the last character, and gives "" for "" |
| `Wallet.ReadLinesOfSaved` | wallet.py:15-18 | saved text of two newline-free keys, the private one non-empty, reads back as exactly the two lines `public + "\n"` and `private` |
| `Wallet.SaveLoadRoundTrip` | wallet.py:15-27 | loading what was saved restores both keys and succeeds, whatever the loading wallet held |
| `Wallet.CreatedKeysRoundTrip` | wallet.py:8-10 | keys from `create_keys` with identifiers free of `\n` and `\r` survive a save and a load |
| `Wallet.CarriageReturnBreaksRoundTrip` | wallet.py:15-27 | a saved public key `a + "\r" + b` reads back as three lines: the public key loads as `a`, the private key as `b + "\n"`, and no failure is reported |
| `Wallet.LoadEmptyKeepsKeys` | wallet.py:23-29 | a missing or empty file changes neither key and reports failure |
| `Wallet.LoadOneLinePartial` | wallet.py:26-29 | a file that reads as one line sets the public key to the line minus its last character and keeps the old private key, then reports failure |
| `Wallet.EmptyPrivateKeyNotRestored` | wallet.py:15-27 | with an empty private key and a public key free of line breaks, the saved text is one line, so the load keeps the old private key and reports failure |

## Left out

- Console I/O: `input`, `print`, the menu text and the failure messages. The choice and the amount are parameters; `print(blockchain)` in `add_value` is not modelled.
- `float(...)` parsing of the amount: the amount is a `real`, and no arithmetic is ever done on it.
- The `while True` loop has no exit, but the script ends at the first exception nothing catches: `EOFError` from `input` at the end of the input, `ValueError` from `float` on an amount that is not a number, and `RecursionError` from `print` of the nested blocks (blockchain.py:18, 36) once the chain is about as deep as the interpreter's recursion limit. `RunScript` therefore also covers input sequences the program never finishes. Every state the program does reach is still a `Replay` of a prefix of its inputs, because the append at blockchain.py:17 comes before the print.
- `load_keys` on a file that cannot be decoded raises `UnicodeDecodeError`, which its `except (IOError, IndexError)` does not catch; it then raises with both keys unchanged. `LoadKeys` has no such outcome: its `None` file stands for the caught `IOError`.
- Python aliasing: a new block refers to the same list object as the previous block. Nothing mutates a block after it is appended, so value semantics give the same contents. The shared default `[1]` is never mutated, which the immutable `Seed` captures.
- `add_value` accepts any Python value as `last_transaction`; the model accepts `[1]` or a block, the only values the script passes.
- `uuid4()` randomness: the two identifiers are parameters of `CreateKeys`.
- Opening, writing and reading `wallet.txt`: a load takes the file text, or `None` when opening fails. A save returns the text it would write. An `IOError` while writing, which could leave a partial file, is not modelled.
- Newline translation when writing: a file opened for writing in text mode writes each `\n` as the platform's line separator. The model writes `\n`, which is what that separator is on POSIX platforms.
