# HoloLive Coliseum core, modelled in Dafny

This project models the bookkeeping core of HoloLive Coliseum. It covers:

- **the ledger** (`blockchain.py`): a hash-linked chain of game results, wager settlement over player balances, search, and escrow contracts;
- **the networking codecs**: `state_sync.py` (delta encoding of state snapshots), `holographic_compression.py` (serialise, XOR-obscure, deflate, split into two anchored base64 fragments, SHA-256 envelope) and `data_protection_manager.py` (repeating-key XOR);
- **the registries**: `node_registry.py` (known peer nodes, de-duplicated in first-occurrence order) and `accounts.py` (user id to access level and public key);
- **the stateful game managers**: inventory, crafting, experience, chat, matchmaking, spawning, quests, key bindings, combat turn order, health, mana, currency, menu navigation, game state, trades, skills with cooldowns, stats, voice chat, notifications, load balancing, threat tables, dungeon lockouts and professions.

There is one Dafny module per source file. Three helper modules support them:

- `PyOps` holds the Python built-ins the sources lean on: `dict.get(k, 0)`, `%` with the divisor's sign, slice-bound normalisation, `list.index`, `list.count` and duplicate-freedom.
- `Wrappers` holds `Option`.
- `Bytes` holds the repeating-key XOR that both the packet codec (`holographic_compression.py`) and `DataProtectionManager` (`data_protection_manager.py`) apply.

Objects whose methods update fields become Dafny classes with `modifies` clauses. Each method's new state is tied to a specification function of the old state. The properties the game relies on are lemmas about those functions:

- wagers create no money;
- the chain stays linked;
- search is the conjunctive filter;
- codec round trips;
- reloading the node list is stable;
- crafting spends exactly the recipe;
- the chat box keeps the last `max` messages;
- spawns are partitioned, not lost;
- menu moves are undone by the opposite move;
- and so on.

State that the source keeps in JSON files (`chain.json`, `balances.json`, `contracts.json`, `nodes.json`, `accounts.json`) is held as class fields. Hashing, uuids, the clock, JSON, zlib and base64 are parameters: an injected hash function, a fresh id, a `now` value, or a `Library` record of functions. The codec round trip is proved under an explicit hypothesis, `Lawful(lib)`, that these library functions invert each other.

Python dictionaries iterate in insertion order, and `min`/`max` keep the first of equal keys. Where that order decides a result (load balancer, threat table), the model keeps an `order` sequence next to the map.

Two behaviours of the code are worth knowing, and the model follows them:

- `add_game` records games between accounts that were never registered (there is no unknown-account check at `blockchain.py:54-79`).
- `StateSync.encode` compares with `last_state.get(k)`, so a new key whose value is `None` is never sent (`state_sync.py:15`). `StateSync.NewNullKeyIsLost` exhibits this.

## Model

| member | source | states |
|---|---|---|
| Ledger.ValidChainAppend | hololive_coliseum/blockchain.py:56-70 | a chain plus one block is valid iff the chain is valid and the block sits at index `len(chain)`, links to the tail hash ("" for the first) and carries its own hash |
| Ledger.DebitAt | hololive_coliseum/blockchain.py:75-76 | the debit loop takes `bet` from a user once per appearance among the players, starting from `balances.get(u, 0)` |
| Ledger.DebitKeys | hololive_coliseum/blockchain.py:75-76 | debiting adds entries for the players and touches no other key |
| Ledger.SettleChange | hololive_coliseum/blockchain.py:73-78 | a user's balance changes by `bet * len(players)` if they won, minus `bet` per appearance among the players |
| Ledger.SumCountAll | hololive_coliseum/blockchain.py:75-77 | over distinct users covering all players, the appearances add up to `len(players)` |
| Ledger.SumChangeSettle | hololive_coliseum/blockchain.py:73-78 | the total change over a list of users is the winner's credit minus the total debit |
| Ledger.SettleSumsToZero | hololive_coliseum/blockchain.py:73-78 | wagers create no money: over distinct users including every player and the winner, the changes sum to zero |
| Ledger.SettleOthersUnchanged | hololive_coliseum/blockchain.py:73-78 | users outside the game keep their balance, and an absent entry stays absent |
| Ledger.MatchingAppend | hololive_coliseum/blockchain.py:86-89 | filtering distributes over concatenation, which keeps chain order |
| Ledger.MatchingMembers | hololive_coliseum/blockchain.py:86-89 | a block is found iff it is in the chain and matches every given filter |
| Ledger.SearchIsConjunctiveFilter | hololive_coliseum/blockchain.py:82-90 | filtering by game id and then by user equals the single conjunctive filter; with no filters the whole chain is returned |
| Ledger.Ledger.constructor | hololive_coliseum/blockchain.py:32-46 | the ledger holds what the chain, balance and contract files hold |
| Ledger.Ledger.AddGame | hololive_coliseum/blockchain.py:54-79 | the block has index `len(chain)`, the given or fresh game id, the players, winner, bet and clock reading, the tail's hash as prev_hash ("" on an empty chain) and its own hash; it is appended; a valid chain stays valid; balances are settled, and unchanged for a zero bet |
| Ledger.Ledger.SearchChain | hololive_coliseum/blockchain.py:82-90 | exactly the stored blocks matching every given filter; the whole chain with no filters |
| Ledger.Ledger.AddContract | hololive_coliseum/blockchain.py:93-96 | the escrow for the request id is stored or overwritten, nothing else changes |
| Ledger.Ledger.FulfillContract | hololive_coliseum/blockchain.py:99-105 | an unknown request id answers None and changes nothing; a known one is popped and recorded as a game with the request id as game id and the escrowed players and bet; a valid chain stays valid |
| StateSync.PyEqReflexive | hololive_coliseum/state_sync.py:15 | every value compares equal to itself under Python's `==` |
| StateSync.PyEqSymmetric | hololive_coliseum/state_sync.py:15 | Python's `==` on these values is symmetric |
| StateSync.NumbersAndBooleansCompareEqual | hololive_coliseum/state_sync.py:15 | `True == 1`, `False == 0` and `[1] == [True]` hold, while `None != 0` and `"1" != 1` |
| StateSync.DiffContents | hololive_coliseum/state_sync.py:12-18 | a delta holds "seq" with the counter and a key exactly when its value differs by Python's `!=` (booleans equal to 0 and 1, lists and dicts compared element by element) from `last.get(k)` |
| StateSync.EqualButDifferentNotSent | hololive_coliseum/state_sync.py:15 | changing `{"hp": 1}` to `{"hp": True}` sends only the counter |
| StateSync.MergeContents | hololive_coliseum/state_sync.py:20-28 | merging overwrites exactly the delta's non-"seq" keys and keeps every other key |
| StateSync.MergeDiffReconstructs | hololive_coliseum/state_sync.py:12-28 | applying the delta to the sender's previous snapshot rebuilds the new snapshot up to Python's `==` (exactly on every key that was sent) when no key was dropped, none is named "seq" and no new key holds None |
| StateSync.NewNullKeyIsLost | hololive_coliseum/state_sync.py:15 | for every snapshot pair, a key new to `last` whose value is None is neither in the delta nor in the receiver's merged state |
| StateSync.StateSync.constructor | hololive_coliseum/state_sync.py:8-10 | empty snapshot, counter 0 |
| StateSync.StateSync.Encode | hololive_coliseum/state_sync.py:12-18 | the counter is bumped, the delta is the diff (by Python's `!=`) against the previous snapshot, and the full state is remembered |
| StateSync.StateSync.Apply | hololive_coliseum/state_sync.py:20-28 | an integer "seq" is taken without an ordering check, the other keys are merged, and a copy of the merged state is returned |
| HolographicCompression.StripAnchored | hololive_coliseum/holographic_compression.py:22-25 | a fragment that starts with the anchor has it removed |
| HolographicCompression.SplitJoin | hololive_coliseum/holographic_compression.py:14-17 | both fragments start with "HLPC", the second payload is as long as the first or one longer, and stripping and joining gives the base64 text back |
| HolographicCompression.PointcloudRoundTrip | hololive_coliseum/holographic_compression.py:10-28 | under lawful zlib/base64, decoding the two fragments gives back the bytes |
| HolographicCompression.CompressFailsOnlyOnEmptyKey | hololive_coliseum/holographic_compression.py:31-33 | `compress_packet` raises exactly when the key is empty and the serialised message is non-empty (division by `len(key)`) |
| HolographicCompression.EnvelopeDigestsObscuredBytes | hololive_coliseum/holographic_compression.py:42-47 | the envelope holds the two fragments of the XOR'd bytes and the SHA-256 of the XOR'd bytes |
| HolographicCompression.RoundTrip | hololive_coliseum/holographic_compression.py:36-66 | `decompress_packet(compress_packet(m, k), k) == m` with or without a key, under lawful library functions |
| HolographicCompression.DigestMismatchRejected | hololive_coliseum/holographic_compression.py:60-61 | an envelope whose digest does not match the recovered bytes decodes to None |
| HolographicCompression.EmptyKeyDecodesNothing | hololive_coliseum/holographic_compression.py:62-66 | an empty key never decodes a non-empty payload: the error is caught and None returned |
| Bytes.Xor | hololive_coliseum/holographic_compression.py:31-33 | the XOR keeps the length; it needs a non-empty key unless the data is empty |
| Bytes.XorInvolution | hololive_coliseum/holographic_compression.py:31-33 | XOR with the same key twice is the identity |
| DataProtection.DataProtectionManager.Encrypt | hololive_coliseum/data_protection_manager.py:7-10 | an empty key returns the data; otherwise byte `i` is XOR'd with `key[i % len(key)]`; length kept |
| DataProtection.DataProtectionManager.Decrypt | hololive_coliseum/data_protection_manager.py:12-13 | decryption keeps the length |
| DataProtection.DataProtectionManager.DecryptEncrypt | hololive_coliseum/data_protection_manager.py:7-13 | decrypting what was encrypted gives the data back |
| NodeRegistry.ParsedEntries | hololive_coliseum/node_registry.py:21-22 | reading back what `save_nodes` wrote gives the same nodes |
| NodeRegistry.DedupElements | hololive_coliseum/node_registry.py:26-29 | de-duplication keeps exactly the elements of the input |
| NodeRegistry.DedupNoDup | hololive_coliseum/node_registry.py:26-29 | the de-duplicated list has no duplicates |
| NodeRegistry.DedupFirstOccurrenceOrder | hololive_coliseum/node_registry.py:25-29 | the kept nodes appear in the order of their first occurrences |
| NodeRegistry.DedupNoDupIdentity | hololive_coliseum/node_registry.py:26-29 | a list without duplicates is its own de-duplication |
| NodeRegistry.DedupAbsorb | hololive_coliseum/node_registry.py:26-29 | appending nodes already present changes nothing |
| NodeRegistry.DedupFresh | hololive_coliseum/node_registry.py:26-29 | appending distinct new nodes appends them |
| NodeRegistry.DedupPrefix | hololive_coliseum/node_registry.py:26-29 | de-duplicating `a + b` starts with the de-duplication of `a`, and the rest holds nothing of `a` |
| NodeRegistry.ReloadIsStable | hololive_coliseum/node_registry.py:14-37 | loading a saved list puts the defaults in front again, which changes nothing |
| NodeRegistry.SaveAppends | hololive_coliseum/node_registry.py:40-45 | saving the loaded list plus a node it lacks and loading again yields the list plus that node |
| NodeRegistry.NodeRegistry.constructor | hololive_coliseum/node_registry.py:8 | the registry holds what `nodes.json` holds |
| NodeRegistry.NodeRegistry.LoadNodes | hololive_coliseum/node_registry.py:14-30 | the defaults followed by the file's entries up to the first malformed one, each node once, in first-occurrence order, default node first; a missing file or one that is not valid JSON gives the defaults |
| NodeRegistry.NodeRegistry.SaveNodes | hololive_coliseum/node_registry.py:33-37 | the file is overwritten with the list, and loading then yields the de-duplicated defaults plus the list |
| NodeRegistry.NodeRegistry.AddNode | hololive_coliseum/node_registry.py:40-45 | a known node changes nothing; a new node is appended to the loaded list |
| Accounts.Registered | hololive_coliseum/accounts.py:39-42 | the user's entry is written or overwritten; other entries are kept |
| Accounts.Deleted | hololive_coliseum/accounts.py:45-50 | the user's entry is gone; other entries are kept; an unknown user changes nothing |
| Accounts.Lookup | hololive_coliseum/accounts.py:53-54 | None exactly for an unknown user, else the stored entry |
| Accounts.LookupRegistered | hololive_coliseum/accounts.py:39-54 | looking up a registered user gives what was registered; other users are unaffected |
| Accounts.DeleteUndoesRegister | hololive_coliseum/accounts.py:39-54 | after a delete the user is unknown; registering and then deleting a new user restores the registry |
| Accounts.AccountRegistry.constructor | hololive_coliseum/accounts.py:30-32 | the registry holds what `accounts.json` holds |
| Accounts.AccountRegistry.RegisterAccount | hololive_coliseum/accounts.py:39-42 | the registry becomes `Registered` of the old one |
| Accounts.AccountRegistry.DeleteAccount | hololive_coliseum/accounts.py:45-50 | the registry becomes `Deleted` of the old one |
| Inventory.Added | hololive_coliseum/inventory_manager.py:7-8 | the item's count rises by `count` from `get(item, 0)`; others are unchanged |
| Inventory.Removed | hololive_coliseum/inventory_manager.py:10-19 | the count falls by `count`; the entry disappears exactly when it reaches zero; others are unchanged |
| Inventory.RemoveUndoesAdd | hololive_coliseum/inventory_manager.py:7-19 | removing what was just added succeeds and restores an inventory of positive counts |
| Inventory.InventoryManager.constructor | hololive_coliseum/inventory_manager.py:4-5 | empty inventory |
| Inventory.InventoryManager.Add | hololive_coliseum/inventory_manager.py:7-8 | items become `Added` of the old items |
| Inventory.InventoryManager.Remove | hololive_coliseum/inventory_manager.py:10-19 | True iff at least `count` are held, then the items become `Removed`; False leaves them unchanged |
| Inventory.InventoryManager.LoadFromDict | hololive_coliseum/inventory_manager.py:30-31 | the items become a copy of the data |
| Inventory.SaveLoadScenario | hololive_coliseum/inventory_manager.py:27-31 | loading what `to_dict` saved restores the items |
| Crafting.Spent | hololive_coliseum/crafting_manager.py:24-25 | after removing the done ingredients, each is lower by its amount and dropped at zero; other items are unchanged |
| Crafting.SpentNone | hololive_coliseum/crafting_manager.py:24-25 | nothing removed yet leaves the items as they were |
| Crafting.SpentStep | hololive_coliseum/crafting_manager.py:21-25 | with every ingredient sufficient, removing one more always succeeds and extends the spent set |
| Crafting.CraftedCounts | hololive_coliseum/crafting_manager.py:24-27 | a craft lowers each ingredient by its amount and raises the result item by one |
| Crafting.HasIngredients | hololive_coliseum/crafting_manager.py:21-23 | the check loop answers whether every ingredient is held in sufficient amount |
| Crafting.SpendAll | hololive_coliseum/crafting_manager.py:24-25 | the removal loop removes every ingredient's amount |
| Crafting.CraftingManager.constructor | hololive_coliseum/crafting_manager.py:4-6 | no recipes |
| Crafting.CraftingManager.AddRecipe | hololive_coliseum/crafting_manager.py:8-11 | the recipe and its result are stored or overwritten |
| Crafting.CraftingManager.Craft | hololive_coliseum/crafting_manager.py:13-28 | None with the inventory untouched for an unknown or empty recipe or a short ingredient; otherwise the ingredients are spent, one result item is added, and the result's name is returned |
| Experience.AfterXp | hololive_coliseum/experience_manager.py:9-17 | `level * threshold + xp` grows by exactly `amount`, the xp ends below the threshold, and True is returned iff the level rose; without a level-up the xp simply grows |
| Experience.ExperienceManager.constructor | hololive_coliseum/experience_manager.py:4-7 | level, xp and threshold as given, defaulting to 1, 0 and 100 |
| Experience.ExperienceManager.AddXp | hololive_coliseum/experience_manager.py:9-17 | the loop ends in the closed-form outcome `AfterXp` |
| Chat.Window | hololive_coliseum/chat_manager.py:18-21 | the message is appended and, once over `max_messages`, exactly the oldest entry is dropped; a history within the bound stays within it |
| Chat.Last | hololive_coliseum/chat_manager.py:26 | the newest `n` entries, or all when there are fewer |
| Chat.WindowOfLast | hololive_coliseum/chat_manager.py:18-21 | sending to the last `max` messages gives the last `max` of the longer history |
| Chat.SendAllKeepsLast | hololive_coliseum/chat_manager.py:18-21 | from an empty box, the history is always the last `max_messages` messages sent |
| Chat.History | hololive_coliseum/chat_manager.py:23-26 | None gives everything; `messages[-limit:]` keeps the newest `limit` for a positive limit, everything for 0, and drops the oldest `-limit` for a negative one |
| Chat.ChatManager.constructor | hololive_coliseum/chat_manager.py:4-7 | empty, closed box with the given bound, 50 by default |
| Chat.ChatManager.Toggle | hololive_coliseum/chat_manager.py:9-10 | the open flag flips |
| Chat.ChatManager.Show | hololive_coliseum/chat_manager.py:12-13 | the box is open |
| Chat.ChatManager.Hide | hololive_coliseum/chat_manager.py:15-16 | the box is closed |
| Chat.ChatManager.Send | hololive_coliseum/chat_manager.py:18-21 | the history becomes the window after the message |
| Chat.ChatManager.Clear | hololive_coliseum/chat_manager.py:28-29 | the history is empty |
| Matchmaking.Joined | hololive_coliseum/matchmaking_manager.py:7-9 | a queued player changes nothing, a new one is appended, and the queue stays free of duplicates |
| Matchmaking.Split | hololive_coliseum/matchmaking_manager.py:11-16 | a group exists iff `len(queue) >= size`; group and rest concatenate to the queue; the group is the first `size` players (for a negative size, Python's slice drops the last `-size`) |
| Matchmaking.SplitKeepsNoDup | hololive_coliseum/matchmaking_manager.py:11-16 | the rest of a duplicate-free queue is duplicate-free and shares nobody with the group |
| Matchmaking.MatchmakingManager.constructor | hololive_coliseum/matchmaking_manager.py:4-5 | empty queue |
| Matchmaking.MatchmakingManager.Join | hololive_coliseum/matchmaking_manager.py:7-9 | the queue becomes `Joined` of the old queue |
| Matchmaking.MatchmakingManager.Match | hololive_coliseum/matchmaking_manager.py:11-16 | the group is returned and removed when enough players wait; otherwise None and the queue is unchanged |
| Spawn.Due | hololive_coliseum/spawn_manager.py:10 | every handed-out entry has `t <= now` |
| Spawn.Pending | hololive_coliseum/spawn_manager.py:11 | every kept entry has `t > now` |
| Spawn.ObjectsAppend | hololive_coliseum/spawn_manager.py:10 | the `[o for t, o in ...]` projection distributes over concatenation |
| Spawn.ReadyInScheduleOrder | hololive_coliseum/spawn_manager.py:9-12 | for a schedule extended by later entries, the earlier entries' due objects are handed out first, then the later ones' |
| Spawn.FilterMembers | hololive_coliseum/spawn_manager.py:10-11 | an entry is handed out iff it is scheduled at or before `now`, and kept otherwise |
| Spawn.DuePendingPartition | hololive_coliseum/spawn_manager.py:9-12 | handed-out and kept entries together are the schedule: nothing lost, nothing doubled |
| Spawn.FiltersAppend | hololive_coliseum/spawn_manager.py:10-11 | both filters distribute over concatenation, so schedule order is kept |
| Spawn.PendingHasNothingDue | hololive_coliseum/spawn_manager.py:9-12 | a second `get_ready(now)` hands out nothing and keeps everything |
| Spawn.SpawnManager.constructor | hololive_coliseum/spawn_manager.py:3-4 | empty schedule |
| Spawn.SpawnManager.Schedule | hololive_coliseum/spawn_manager.py:6-7 | the entry is appended |
| Spawn.SpawnManager.GetReady | hololive_coliseum/spawn_manager.py:9-12 | the due objects are returned in schedule order and only the pending entries are kept |
| Quests.Advanced | hololive_coliseum/quest_manager.py:12-15 | only an active quest's progress moves, by `amount`; no quest is added or removed |
| Quests.ProgressOf | hololive_coliseum/quest_manager.py:26-27 | any quest that is not active has progress 0 |
| Quests.AdvancedAccumulates | hololive_coliseum/quest_manager.py:12-27 | progress adds up over updates of an active quest and stays 0 for an inactive one |
| Quests.QuestManager.constructor | hololive_coliseum/quest_manager.py:4-6 | no active and no completed quests |
| Quests.QuestManager.Add | hololive_coliseum/quest_manager.py:8-10 | the quest is (re)started with progress 0 |
| Quests.QuestManager.UpdateProgress | hololive_coliseum/quest_manager.py:12-15 | the quests become `Advanced` of the old ones |
| Quests.QuestManager.Complete | hololive_coliseum/quest_manager.py:17-21 | an active quest moves to completed; any other id changes nothing |
| Quests.QuestManager.LoadFromDict | hololive_coliseum/quest_manager.py:35-37 | active and completed quests are taken from the data; a missing key loads as empty |
| Quests.SaveLoadScenario | hololive_coliseum/quest_manager.py:29-37 | loading what `to_dict` has just returned restores both the active quests with their progress and the completed set |
| Keybinds.Lookup | hololive_coliseum/keybind_manager.py:8-9 | the binding, else the default, else None exactly when the action has neither |
| Keybinds.Overlay | hololive_coliseum/keybind_manager.py:20-23 | every entry of the data, and every default the data does not override |
| Keybinds.OverlayForgets | hololive_coliseum/keybind_manager.py:20-23 | loading an earlier save forgets actions bound since that have no default |
| Keybinds.KeybindManager.constructor | hololive_coliseum/keybind_manager.py:4-6 | the bindings start as the defaults |
| Keybinds.KeybindManager.Set | hololive_coliseum/keybind_manager.py:11-12 | the action answers the new key and every other action answers as before |
| Keybinds.KeybindManager.Reset | hololive_coliseum/keybind_manager.py:14-15 | the bindings are the defaults again |
| Keybinds.KeybindManager.LoadFromDict | hololive_coliseum/keybind_manager.py:20-23 | the loop ends with the data written over the defaults |
| Combat.RemoveFirst | hololive_coliseum/combat_manager.py:23-25 | an absent actor changes nothing; otherwise one occurrence of it is removed and nothing else |
| Combat.RemoveFirstKeepsOrder | hololive_coliseum/combat_manager.py:23-25 | it is the first occurrence that goes; those before stay in place and those after move up by one |
| Combat.TurnsAt | hololive_coliseum/combat_manager.py:27-33 | the `i`-th of `k` successive `next_actor` calls from counter `index` returns `participants[(index + i) % n]` |
| Combat.RoundIsRotation | hololive_coliseum/combat_manager.py:27-33 | `n` successive `next_actor` calls from any counter return the participants rotated to start at `index % n`: each served once, in list order |
| Combat.EveryoneWithinARound | hololive_coliseum/combat_manager.py:27-33 | from any counter value, participant `j` is returned by call number `(j - index) % n` of the next `n` calls |
| Combat.CombatManager.constructor | hololive_coliseum/combat_manager.py:12-14 | no participants, counter 0 |
| Combat.CombatManager.Add | hololive_coliseum/combat_manager.py:19-21 | the actor is appended |
| Combat.CombatManager.Remove | hololive_coliseum/combat_manager.py:23-25 | the list becomes `RemoveFirst` of the old one |
| Combat.CombatManager.NextActor | hololive_coliseum/combat_manager.py:27-33 | None iff nobody takes part; otherwise `participants[index % n]`, and the counter advances by one |
| Health.Effective | hololive_coliseum/health_manager.py:12-13 | blocking halves the damage rounding down (Python `//`) |
| Health.Damaged | hololive_coliseum/health_manager.py:8-15 | parrying changes nothing; otherwise health drops by the landed damage, floored at 0 |
| Health.Healed | hololive_coliseum/health_manager.py:17-20 | health rises by `amount`, capped at `max_health` |
| Health.BlockingNeverWorse | hololive_coliseum/health_manager.py:12-14 | blocking a non-negative hit never leaves less health than taking it in full |
| Health.StaysInRange | hololive_coliseum/health_manager.py:8-20 | with non-negative amounts health stays within `[0, max_health]` |
| Health.HealthManager.constructor | hololive_coliseum/health_manager.py:4-6 | full health |
| Health.HealthManager.TakeDamage | hololive_coliseum/health_manager.py:8-15 | health becomes `Damaged` and is returned; blocking and parrying are off by default |
| Health.HealthManager.Heal | hololive_coliseum/health_manager.py:17-20 | health becomes `Healed` and is returned |
| Mana.Used | hololive_coliseum/mana_manager.py:8-13 | succeeds iff enough mana is held, then subtracts it; otherwise nothing changes |
| Mana.Regenerated | hololive_coliseum/mana_manager.py:15-18 | mana rises by `amount`, capped at `max_mana` |
| Mana.StaysInRange | hololive_coliseum/mana_manager.py:8-18 | with non-negative amounts mana stays within `[0, max_mana]` |
| Mana.ManaManager.constructor | hololive_coliseum/mana_manager.py:4-6 | full mana |
| Mana.ManaManager.Use | hololive_coliseum/mana_manager.py:8-13 | the answer and new mana are `Used` |
| Mana.ManaManager.Regen | hololive_coliseum/mana_manager.py:15-18 | mana becomes `Regenerated` and is returned |
| Currency.Spent | hololive_coliseum/currency_manager.py:10-14 | succeeds iff the amount is covered, then subtracts it; otherwise nothing changes |
| Currency.AddThenSpend | hololive_coliseum/currency_manager.py:6-14 | from a non-negative balance, spending what was just added succeeds and restores the balance |
| Currency.StaysNonNegative | hololive_coliseum/currency_manager.py:6-14 | any sequence of `add` and `spend` calls with non-negative amounts, started from a non-negative balance, ends non-negative |
| Currency.CurrencyManager.constructor | hololive_coliseum/currency_manager.py:3-4 | the starting balance, 0 by default |
| Currency.CurrencyManager.Add | hololive_coliseum/currency_manager.py:6-8 | the balance becomes `Deposited(balance, amount)` and is returned |
| Currency.CurrencyManager.Spend | hololive_coliseum/currency_manager.py:10-14 | the answer and new balance are `Spent` |
| Menu.Moved | hololive_coliseum/menu_manager.py:11-14 | count 0 leaves the index; otherwise it stays in `[0, count)` (or `(count, 0]` for a negative count), steps by `direction` inside the range and wraps at both ends |
| Menu.MoveBack | hololive_coliseum/menu_manager.py:11-14 | moving by `-direction` undoes a move, across the wrap too |
| Menu.MenuManager.constructor | hololive_coliseum/menu_manager.py:4-5 | index 0 |
| Menu.MenuManager.Reset | hololive_coliseum/menu_manager.py:7-9 | index 0 |
| Menu.MenuManager.Move | hololive_coliseum/menu_manager.py:11-14 | the index becomes `Moved` |
| GameState.Reverted | hololive_coliseum/game_state_manager.py:13-16 | with no previous state nothing changes; otherwise current and previous swap |
| GameState.RevertTwice | hololive_coliseum/game_state_manager.py:13-16 | reverting twice puts everything back |
| GameState.GameStateManager.constructor | hololive_coliseum/game_state_manager.py:4-6 | the initial state ("splash" by default), no previous one |
| GameState.GameStateManager.Change | hololive_coliseum/game_state_manager.py:8-11 | the new state is current and the old one remembered |
| GameState.GameStateManager.Revert | hololive_coliseum/game_state_manager.py:13-16 | state and previous become `Reverted` |
| Trade.Pop | hololive_coliseum/trade_manager.py:14-16 | the trade, if pending, and the table without it |
| Trade.PopTwice | hololive_coliseum/trade_manager.py:14-16 | a trade can be accepted at most once |
| Trade.TradeManager.constructor | hololive_coliseum/trade_manager.py:4-6 | nothing pending, next id 1 |
| Trade.TradeManager.ProposeTrade | hololive_coliseum/trade_manager.py:8-12 | a fresh id, never used before, is returned and the trade stored under it; ids keep growing |
| Trade.TradeManager.AcceptTrade | hololive_coliseum/trade_manager.py:14-16 | the pending trade is returned and removed; an unknown id gives None |
| Skills.FirstUseFires | hololive_coliseum/skill_manager.py:3-6 | a new skill fires on its first use at any time `now >= 0` |
| Skills.CooldownBlocks | hololive_coliseum/skill_manager.py:22 | after firing at `t`, the skill fires again iff at least `cooldown` has passed |
| Skills.Skill.constructor | hololive_coliseum/skill_manager.py:3-6 | cooldown and callback as given, last use at `-cooldown` |
| Skills.SkillManager.constructor | hololive_coliseum/skill_manager.py:10-11 | no skills |
| Skills.SkillManager.Register | hololive_coliseum/skill_manager.py:13-15 | a fresh skill object is stored under the name; other names keep theirs |
| Skills.SkillManager.Use | hololive_coliseum/skill_manager.py:17-25 | None for an unknown skill or one cooling down, which keeps its last use; otherwise the callback's result at `now`, and the last use becomes `now`; no other skill changes |
| Stats.Modified | hololive_coliseum/stats_manager.py:8-14 | the stat's modifier moves by `amount` from `get(stat, 0)`; others are unchanged |
| Stats.ModifiersAccumulate | hololive_coliseum/stats_manager.py:8-18 | two changes to a stat add up, and other stats keep their value |
| Stats.ApplyThenRemove | hololive_coliseum/stats_manager.py:8-18 | removing what was applied gives every stat its value back |
| Stats.Snapshot | hololive_coliseum/stats_manager.py:20-22 | every base stat with base plus modifier, and nothing else |
| Stats.StatsManager.constructor | hololive_coliseum/stats_manager.py:4-6 | the base stats, each with modifier 0 |
| Stats.StatsManager.ApplyModifier | hololive_coliseum/stats_manager.py:8-10 | the modifiers become `Modified` by `amount` |
| Stats.StatsManager.RemoveModifier | hololive_coliseum/stats_manager.py:12-14 | the modifiers become `Modified` by `-amount` |
| VoiceChat.Joined | hololive_coliseum/voice_chat_manager.py:7-8 | the user is in the channel, created if needed; other channels are unchanged; no channel is empty |
| VoiceChat.Left | hololive_coliseum/voice_chat_manager.py:10-14 | the user leaves the channel, which is dropped once empty; other channels are unchanged; no channel is empty |
| VoiceChat.JoinThenLeave | hololive_coliseum/voice_chat_manager.py:7-14 | a user who joins and leaves leaves no trace |
| VoiceChat.VoiceChatManager.constructor | hololive_coliseum/voice_chat_manager.py:4-5 | no channels |
| VoiceChat.VoiceChatManager.Join | hololive_coliseum/voice_chat_manager.py:7-8 | the channels become `Joined` |
| VoiceChat.VoiceChatManager.Leave | hololive_coliseum/voice_chat_manager.py:10-14 | the channels become `Left` |
| Notifications.Popped | hololive_coliseum/notification_manager.py:10-11 | None iff the queue is empty; otherwise the oldest message and the rest |
| Notifications.PopMany | hololive_coliseum/notification_manager.py:10-11 | `n` pops hand out `min(n, len(queue))` messages |
| Notifications.PopsInPushOrder | hololive_coliseum/notification_manager.py:7-11 | popping as often as there are messages gives them in push order |
| Notifications.PushKeepsOrder | hololive_coliseum/notification_manager.py:7-11 | a push does not change what the earlier messages pop as |
| Notifications.NotificationManager.constructor | hololive_coliseum/notification_manager.py:4-5 | empty queue |
| Notifications.NotificationManager.Push | hololive_coliseum/notification_manager.py:7-8 | the message is appended |
| Notifications.NotificationManager.Pop | hololive_coliseum/notification_manager.py:10-11 | answer and queue are `Popped` |
| LoadBalancer.ArgMin | hololive_coliseum/load_balancer_manager.py:13 | the position of a smallest load, with every earlier load strictly larger |
| LoadBalancer.Best | hololive_coliseum/load_balancer_manager.py:10-13 | None iff no load is recorded; otherwise a recorded server with the smallest load, the first reported among equals |
| LoadBalancer.FirstOfEqualLoadsWins | hololive_coliseum/load_balancer_manager.py:13 | of two servers with the same smallest load, the one reported first is chosen |
| LoadBalancer.LoadBalancerManager.constructor | hololive_coliseum/load_balancer_manager.py:4-5 | no loads |
| LoadBalancer.LoadBalancerManager.UpdateLoad | hololive_coliseum/load_balancer_manager.py:7-8 | only that server's load changes; a new server goes to the end of the order |
| Threat.ArgMax | hololive_coliseum/threat_manager.py:13 | the position of a largest total, with every earlier total strictly smaller |
| Threat.Added | hololive_coliseum/threat_manager.py:7-8 | the actor's total grows by `amount` from `get(actor, 0)`; other totals are unchanged |
| Threat.AddsAccumulate | hololive_coliseum/threat_manager.py:7-8 | two additions for one actor add up |
| Threat.Highest | hololive_coliseum/threat_manager.py:10-13 | None iff the table is empty; otherwise an actor with a maximal total, the first to gain threat among equals |
| Threat.FirstOfEqualTotalsWins | hololive_coliseum/threat_manager.py:13 | of two actors with the same highest total, the one that gained threat first is chosen |
| Threat.ThreatManager.constructor | hololive_coliseum/threat_manager.py:4-5 | empty table |
| Threat.ThreatManager.AddThreat | hololive_coliseum/threat_manager.py:7-8 | the table becomes `Added`; a new actor goes to the end of the order |
| Dungeon.LockoutDecides | hololive_coliseum/dungeon_manager.py:6-11 | after `set_lockout(p, d, e)`, `can_enter(p, d, now)` holds iff `now >= e` |
| Dungeon.LockoutsIndependent | hololive_coliseum/dungeon_manager.py:6-11 | setting one pair's lockout does not change entry for any other pair |
| Dungeon.NoLockoutAdmits | hololive_coliseum/dungeon_manager.py:9-11 | with no lockout a player may always enter |
| Dungeon.DungeonManager.constructor | hololive_coliseum/dungeon_manager.py:3-4 | no lockouts |
| Dungeon.DungeonManager.SetLockout | hololive_coliseum/dungeon_manager.py:6-7 | that pair's lockout is overwritten; every other pair keeps its own |
| Profession.LevelOf | hololive_coliseum/profession_manager.py:12-13 | the level `l` satisfies `100 * l <= xp < 100 * l + 100` (Python `//`, negative xp included) |
| Profession.Gained | hololive_coliseum/profession_manager.py:9-10 | the profession's xp grows by `amount` from 0 for a new one; others are unchanged |
| Profession.UnknownIsLevelZero | hololive_coliseum/profession_manager.py:6-13 | an unknown profession is at level 0 |
| Profession.GainsAccumulate | hololive_coliseum/profession_manager.py:9-13 | gains add up, and the level is that of the total |
| Profession.LevelIsUnique | hololive_coliseum/profession_manager.py:12-13 | the level is the only `l` with `100 * l <= xp < 100 * (l + 1)` |
| Profession.ProfessionManager.constructor | hololive_coliseum/profession_manager.py:6-7 | no xp recorded |
| Profession.ProfessionManager.GainXp | hololive_coliseum/profession_manager.py:9-10 | the xp table becomes `Gained` |

## Left out

- Networking, rendering and input (`network.py`, `game.py`, pygame sprites and every manager outside the list above) are not part of this model.
- File I/O: each JSON file is a field holding its decoded contents. A missing file, or one that is not valid JSON, is the empty value the source falls back to; for the ledger files (`chain.json`, `balances.json`, `contracts.json`) and `accounts.json` an unreadable file falls back too. Concurrent writers and partial writes are not modelled.
- Hashing, uuids and the clock: `_hash_block` is an injected function `hashOf` over the block header; `uuid4().hex` and `time.time()` are the `freshId` and `now` parameters of `AddGame`.
- JSON, zlib, base64 and SHA-256 in the packet codec are the fields of a `Library` record. Their inverse laws are the `Lawful` hypothesis of the round-trip lemmas, so the model does not show that the real libraries satisfy them.
- `blockchain.py` has no chain verification or merge operation. The model states chain validity as `ValidChain` and proves that `AddGame` and `FulfillContract` preserve it.
- StateSync.StateSync.Apply: only an integer "seq" value is tracked; a delta whose "seq" is not an integer leaves the counter unchanged, where Python would store that value.
- The values exchanged by `StateSync` are a `Value` datatype with six cases: None, booleans, integers, strings, lists and dicts with string keys. Floats, tuples, sets and dicts with non-string keys are not modelled. Python's cross-type `==` (`True == 1`, `[1] == [True]`) is modelled by `PyEq`.
- StateSync.StateSync.Encode: `state.copy()` is shallow, so a nested list or dict stays shared between the caller and `last_state` and a later in-place mutation by the caller changes the remembered snapshot (`state_sync.py:17`). Values here are immutable, so this aliasing is not modelled.
- NodeRegistry.NodeRegistry.LoadNodes: an existing `nodes.json` that cannot be opened or read raises `OSError` out of `load_nodes` and `add_node`, because `node_registry.py:23` catches only JSON, value and type errors. The model has no error path for it.
- NodeRegistry.NodeRegistry.LoadNodes: the file's entries are already classified as host/port pairs or malformed ones; `int(port)` parsing of strings is not modelled.
- Quests.SaveLoadScenario: `to_dict` returns the live `active` dict (`quest_manager.py:31`), so changes to `active` between saving and loading also change the saved data. A quest completed in between is lost on reload, and progress updates made in between carry over. The model's `ToDict` returns a value, so the scenario states only the immediate round trip, which holds in the source as well.
- Quests.QuestManager.LoadFromDict: quest entries are assumed to carry both an objective and a progress. The dict aliasing between `to_dict()["active"]` and the manager's own table is not modelled, because `to_dict` returns a value.
- Skills.SkillManager.Use: the callback takes only `now`; extra positional and keyword arguments are not modelled. A callback result of None is reported as `Some` of that result rather than being indistinguishable from a refusal.
- Skills.FirstUseFires: stated for `now >= 0` only. A negative clock reading is outside what the game passes (milliseconds since start).
- Experience.AfterXp and Experience.ExperienceManager.AddXp require `threshold > 0` or no level gain, because with a non-positive threshold the source's loop never terminates once it is entered.
- Threat: actors are strings. The source accepts any hashable actor.
- Profession: a lookup of an unknown profession in the `defaultdict` inserts a 0 entry. No caller can observe the entry, so `LevelOf` does not add it.
- Combat: `combat_manager.py` defines `add`, `remove` and `next_actor` twice with identical bodies (lines 19-33 and 98-112); they are modelled once. `handle_collisions` (pygame collision handling) is not modelled.
- Inventory `has`, `count` and `to_dict`, Accounts `get_account`, Quests `is_completed`, `get_progress` and `to_dict`, Keybinds `get` and `to_dict`, Stats `get` and `to_dict`, Currency `get_balance`, Load balancer `best_server`, Threat `highest_threat` and Dungeon `can_enter` are read-only functions of the class that return the specification function over its fields. Their properties are stated on those specification functions.
