# yang-genai-chat-service core, modelled in Dafny

The service is a FastAPI back end for a chat assistant running on Amazon Bedrock.
This project models its core:

- **Persistence.** The ORM tables for LLMs, agents, tools, roles, users and messages. The CRUD functions over them, and the start-up seeding of roles, the administrator account, the tool catalogue, the default LLM and the default agent.
- **Agent and model factories.** How an agent is assembled for a model name, from the stored LLM record, the tools the agent declares and the tools enabled system-wide. How a plain text model is picked by name.
- **Bedrock client settings.** Built from an LLM record: region, model id, temperature, token limit and optional guardrail.
- **Message preparation and streaming.** The chat messages are formatted for Claude. Two streams return text: the agent stream and the plain-model stream. Each forwards text chunks and ends with a newline or an error chunk.
- **Request guards.** The `x-yang-auth` Basic API-key check, the `Authorization` Bearer check and the claims of the JWT issued at login.

A database table is a `Tables.Table` object. It holds the committed records in insertion order and the next value of the table's id sequence. `Insert`, `Update` and `Delete` are proved against the outcome functions `InsertOutcome`, `UpdateOutcome` and `DeleteOutcome`. They keep the table invariant `TableOk`: every record has exactly its table's columns, no NOT NULL column is NULL, and unique columns (the primary key included) hold distinct values.

Each seeder and each stream is a method proved against a function of its inputs. The properties of the service are lemmas about those functions.

Python values are the `Values.Value` datatype: `None`, bool, int, str, list, dict and bytes. A keyword-argument dictionary is an ordered `Fields` list. The Python builtins the core depends on are modelled in `PyText`: `str.strip`, `str.lower`, `str.split`, `str.join`, `str(int)`, `int(str)` and `repr(str)`.

Foreign calls come in as parameters:

- the Secrets Manager values, `jwt.encode` and `jwt.decode`;
- `base64.b64decode` and the argon2 hash;
- the prompt files;
- the agent's and the model's token streams;
- the agent lookup by LLM id, and a tool class's `.name`;
- what the Claude constructor `claude_model_text()` gives.

## Model

| member | source | states |
|---|---|---|
| Models.LlmDefaults | databases/models.py:18-23 | An LLM record that is created without settings gets region "ap-southeast-1", a token limit of "2048" and a temperature of "0.7". All three are strings. |
| Models.LlmStatusDefaults | databases/models.py:32-33 | A new LLM record is enabled and not trashed. |
| Models.LlmConstraints | databases/models.py:11-27 | The LLM name is unique and required. The guardrail id and the guardrail version are separate nullable columns without a default. |
| Models.LlmColumnFacts | databases/models.py:11-33 | Name, display name and model id are required and have no default. Logo, region and the token and temperature settings are required but have defaults. Only the name is unique. |
| Models.AgentConstraints | databases/models.py:44-61 | An agent has a unique name, one nullable integer `llm_id` and a nullable JSON tool list. A new agent is enabled and not trashed. |
| Models.AgentHasNoDefaultFlag | databases/models.py:41-67 | The agents table has no `default_agent` column. |
| Models.AgentColumnFacts | databases/models.py:44-61 | `name` is the agents table's only required and only unique column besides the key. |
| Models.ToolConstraints | databases/models.py:75-81 | A tool's name is unique. A new tool is disabled and not trashed. |
| Models.ToolColumnFacts | databases/models.py:72-89 | `name` is the tools table's only required and only unique column besides the key. |
| Models.RoleConstraints | databases/models.py:100-104 | A role's name is unique. A new role is enabled and not trashed. |
| Models.RoleColumnFacts | databases/models.py:98-104 | `name` is the roles table's only required and only unique column besides the key. |
| Models.UserConstraints | databases/models.py:118-126 | Usernames are unique and e-mails are unique. A new user is active and not trashed. |
| Models.UserColumnFacts | databases/models.py:116-126 | Username, e-mail, password hash and role id are the required user columns. Username and e-mail are the unique ones. |
| Models.MessageConstraints | databases/models.py:144-145 | A new message is enabled and not trashed. |
| Models.ColumnOfIndex | databases/models.py:6-148 | Column names are distinct, so looking a column up by name finds that column. |
| Models.DefaultOfIndex | databases/models.py:6-148 | Looking up a column's default by name gives the default that column declares. |
| Tables.FirstInvalidKey | databases/crud.py:11-12 | Finds the first constructor keyword that is not a column, in argument order. It finds none exactly when every keyword is a column. |
| Tables.NullColumn | databases/crud.py:13-14 | Finds the first NOT NULL column that the record leaves NULL. It finds none exactly when every NOT NULL column is set. |
| Tables.TakenColumn | databases/crud.py:13-14 | Finds the first unique column whose value another record already holds. It finds none exactly when no unique value clashes. |
| Tables.FirstWhere | databases/crud.py:24-28 | Gives the position of the first record that matches. Every earlier record does not match. It gives nothing exactly when no record matches. |
| Tables.First | databases/crud.py:24-28 | `.scalars().first()` gives a stored record holding the value exactly when some record holds it. |
| Tables.AllWhere | databases/crud.py:77-81 | `.scalars().all()` returns every stored record that matches, and only those. |
| Tables.InsertOutcome | databases/crud.py:10-16 | A create either fails and leaves the records as they were, or appends exactly the returned record. |
| Tables.NewRowShape | databases/crud.py:12 | A new record holds exactly its table's columns. |
| Tables.NewRowValue | databases/crud.py:12 | Each column of a new record holds the value given for it, or else the column default, or else NULL. The id comes from the sequence unless it was given. |
| Tables.InsertSpec | databases/crud.py:10-16 | An unknown keyword is an error. A successful create stores the given values and keeps the earlier records. |
| Tables.InsertSucceeds | databases/crud.py:10-16 | A create succeeds and advances the sequence when all of these hold: every keyword is a column with a value, every required column is covered, and no unique value is taken. |
| Tables.InsertKeepsOk | databases/crud.py:10-16 | Creates keep the table invariant. |
| Tables.AppendKeepsOk | databases/crud.py:13-14 | Appending a record that passes the constraint checks keeps the table invariant. |
| Tables.SetAttrsSpec | databases/crud.py:43-45 | `setattr` sets exactly the update keys that are columns. Every other column keeps its value. |
| Tables.UpdateSpec | databases/crud.py:36-51 | An unknown id gives None and changes nothing. Otherwise only that record changes, and it holds the given values. A constraint failure leaves the table as it was. |
| Tables.UpdateKeepsOk | databases/crud.py:36-51 | Updates keep the table invariant. |
| Tables.IdIsKey | databases/models.py:116 | Under the table invariant, at most one record has a given id. |
| Tables.DeleteSpec | databases/crud.py:54-64 | The delete reports True exactly when a record has the id. An unknown id gives None and changes nothing. Otherwise exactly one record is removed and every record with another id is kept. |
| Tables.DeleteKeepsOk | databases/crud.py:54-64 | After a delete, no record has the deleted id, and the invariant still holds. |
| Tables.RemoveAt | databases/crud.py:61-62 | Removing position k shifts the later records down by one and keeps the earlier ones. |
| Tables.Table.constructor | databases/models.py:6-148 | A new table is empty, valid, and its sequence starts at 1. |
| Tables.Table.Insert | databases/crud.py:10-16 | The new records and sequence are those of `InsertOutcome`. The invariant is kept. |
| Tables.Table.Update | databases/crud.py:36-51 | Finds the record with the first-match search `FirstWhere`, then sets the given columns one by one in a loop. The new records are those of `UpdateOutcome`. The sequence is unchanged and the invariant is kept. |
| Tables.Orphaned | databases/models.py:39-52 | A relationship without a delete cascade detaches the children of a deleted parent. Every child whose foreign key held the parent's id has NULL there and keeps its other columns. Every other record is unchanged. Afterwards no record refers to the id. |
| Tables.OrphanedKeepsOk | databases/models.py:133-140 | Detaching the children keeps the table invariant when the foreign key is nullable. |
| Tables.Table.Orphan | databases/models.py:133-140 | The new records are those of `Orphaned`. The invariant is kept when the key column is nullable. |
| Tables.Table.Delete | databases/crud.py:54-64 | Finds the record with the first-match search `FirstWhere` and removes it. The new records are those of `DeleteOutcome`. The invariant is kept. |
| Crud.CreateUser | databases/crud.py:10-16 | Inserts the dumped `UserCreate` payload into `users`, as `InsertOutcome` describes. |
| Crud.CreateMessage | databases/crud.py:68-74 | Inserts the dumped payload into `messages`, as `InsertOutcome` describes. |
| Crud.CreateTool | databases/crud.py:105-111 | Inserts the dumped payload into `tools`, as `InsertOutcome` describes. |
| Crud.CreateLlm | databases/crud.py:174-180 | Inserts the dumped payload into `llms`, as `InsertOutcome` describes. |
| Crud.CreateAgent | databases/crud.py:235-241 | Inserts the dumped payload into `agents`, as `InsertOutcome` describes. |
| Crud.CreateAgentAlwaysFails | databases/crud.py:235-241 | `create_agent` can never succeed. The payload always carries `default_agent`, which is not an agents column, so the table is left unchanged. |
| Crud.CreateUserKeepsSequence | databases/crud.py:10-16 | The client chooses the user id, so `create_user` never advances the users sequence. |
| Crud.CreateUserStoresPayload | databases/crud.py:10-16 | A created user holds the payload's id, username, e-mail and role id. |
| Crud.UpdateUser | databases/crud.py:36-51 | Updates `users` as `UpdateOutcome` describes. The sequence is unchanged. |
| Crud.UpdateTool | databases/crud.py:141-156 | Updates `tools` as `UpdateOutcome` describes. |
| Crud.UpdateLlm | databases/crud.py:203-218 | Updates `llms` as `UpdateOutcome` describes. |
| Crud.UpdateAgent | databases/crud.py:261-276 | Updates `agents` as `UpdateOutcome` describes. |
| Crud.UpdateAgentIgnoresDefaultFlag | databases/crud.py:261-276 | Setting `default_agent` through an update changes no stored record. |
| Crud.DeleteUser | databases/crud.py:54-64 | Deletes from `users` as `DeleteOutcome` describes. When a user is deleted, the user's messages are detached as `Orphaned` describes: their `user_id` becomes NULL. Both tables keep their invariant. |
| Crud.DeleteMessage | databases/crud.py:91-101 | Deletes from `messages` as `DeleteOutcome` describes. |
| Crud.DeleteTool | databases/crud.py:159-169 | Deletes from `tools` as `DeleteOutcome` describes. |
| Crud.DeleteLlm | databases/crud.py:221-231 | Deletes from `llms` as `DeleteOutcome` describes. When an LLM is deleted, its agents are detached as `Orphaned` describes: their `llm_id` becomes NULL. Both tables keep their invariant. |
| Crud.DeleteAgent | databases/crud.py:279-289 | Deletes from `agents` as `DeleteOutcome` describes. |
| Crud.GetById | databases/crud.py:84-88 | Gives a stored record with that id. It gives nothing exactly when no record has the id. |
| Crud.GetUserByUsername | databases/crud.py:30-34 | Gives the first user with exactly that username. It gives nothing exactly when there is none. |
| Crud.GetByName | databases/crud.py:126-130 | Gives the first record with exactly that name. It gives nothing exactly when there is none. |
| Crud.GetEnabled | databases/crud.py:133-138 | Returns every record whose status is "enable", and only those. |
| Crud.GetUserMessages | databases/crud.py:77-81 | Returns every message of the user, and only those. |
| Crud.GetDefaultAgent | databases/crud.py:291-295 | `get_default_agent` always raises: `AgentModel` has no `default_agent` attribute. |
| Seeds.AddAll | databases/seeds.py:22-23 | Flushing a batch either fails or appends one record per batch entry after the existing records. |
| Seeds.CommitOutcome | databases/seeds.py:22-23 | A commit is all or nothing. On failure the records are unchanged. On success the whole batch is appended. |
| Seeds.Commit | databases/seeds.py:22-23 | Commits the batch as `CommitOutcome` describes. The invariant is kept. |
| Seeds.CommitOne | databases/seeds.py:49-50 | Committing one record leaves the table unchanged or appends exactly that record. |
| Seeds.InsertFresh | databases/seeds.py:22-23 | Suppose an insert draws its id from a sequence that is ahead of the records, covers every required column and clashes with no unique value. Then it succeeds, takes the next id and keeps the sequence ahead. |
| Seeds.InsertIntoEmpty | databases/seeds.py:91-92 | A record that covers every required column commits into an empty table as its only record. |
| Seeds.InsertNotNull | databases/seeds.py:91-92 | An insert that leaves a required column without a value or a default fails with a NOT NULL violation. The id it drew stays used. |
| Seeds.RequiredGiven | databases/seeds.py:41-50 | An insert that succeeds gave a value to every required column that has no default. |
| Seeds.SeedRoleOutcome | databases/seeds.py:12-24 | A failed role seeding adds nothing. A successful one leaves at least one role. |
| Seeds.SeedRole | databases/seeds.py:12-24 | Changes the roles table as `SeedRoleOutcome` describes. |
| Seeds.SeedRoleSpec | databases/seeds.py:14-23 | On an empty roles table, commits exactly "admin" then "user", with the next two ids. On any other table, changes nothing. |
| Seeds.CommitTwoByName | databases/seeds.py:18-23 | Two records with different names commit into an empty name-keyed table in order, on consecutive ids. |
| Seeds.InsertByName | databases/seeds.py:19-20 | A record whose name is not yet taken is appended with the next id and keeps the invariant. |
| Seeds.SeedAdminOutcome | databases/seeds.py:26-52 | A failed administrator seeding leaves the users unchanged. |
| Seeds.SeedAdmin | databases/seeds.py:26-52 | Changes the users table as `SeedAdminOutcome` describes. |
| Seeds.SeedAdminSpec | databases/seeds.py:28-37 | An existing "administrator" is left alone. With no "admin" role, reading `.id` of None fails and nothing is added. |
| Seeds.SeedAdminAdds | databases/seeds.py:41-50 | Otherwise the seeding adds exactly one user or nothing. That user is "administrator" with the configured e-mail and password hash, the full name "Administrator" and an "admin" role's id. |
| Seeds.AdminCommitted | databases/seeds.py:49-50 | Committing the administrator's record adds nothing, or appends that one user. |
| Seeds.SeedAdminLeavesAdmin | databases/seeds.py:26-52 | After a successful administrator seeding, a user named "administrator" exists. |
| Seeds.SeedAdminFresh | databases/seeds.py:36-50 | On an empty users table with an "admin" role, the administrator becomes the only user and gets the first admin role's id. |
| Seeds.AdminFieldsFit | databases/seeds.py:41-47 | The administrator's keywords are user columns and cover every required column. |
| Seeds.SeedToolOutcome | databases/seeds.py:54-75 | A failed tool seeding leaves the tools table unchanged. |
| Seeds.SeedTool | databases/seeds.py:68-74 | Runs the seeding loop and commits. The result is that of `SeedToolOutcome`. |
| Seeds.SeedToolSpec | databases/seeds.py:54-75 | On a valid tools table, tool seeding always succeeds. Afterwards every listed name is present, the existing records are kept in place, and each added record carries a listed entry's name and status. |
| Seeds.SeedToolIdempotent | databases/seeds.py:68-74 | A second tool seeding after a successful one changes neither the records nor the sequence. |
| Seeds.SeedToolsFromOk | databases/seeds.py:68-72 | On a valid table, the seeding loop never fails and keeps the invariant. |
| Seeds.SeedToolsFromAppends | databases/seeds.py:68-72 | A loop that ends without error has only appended records that come from the list. |
| Seeds.SeedToolsFromListed | databases/seeds.py:68-72 | After the loop, every listed name is present. |
| Seeds.SeedToolsFromKeeps | databases/seeds.py:68-72 | The loop keeps the existing records in place. |
| Seeds.SeedToolsFromPresent | databases/seeds.py:69-71 | When every listed name is already present, the loop changes nothing. |
| Seeds.SeedToolStep | databases/seeds.py:69-72 | One step of the loop only appends a listed record. |
| Seeds.ToolInserted | databases/seeds.py:72 | A successful insert of a list entry appends one record with its name and status. |
| Seeds.ToolSeedStatuses | databases/seeds.py:55-66 | Exactly duckduckgo, arxiv and wikipedia are seeded enabled. Every status is "enable" or "disable". |
| Seeds.ToolSeedUnmapped | databases/seeds.py:61 | As written, the sixth seeded name is not a key of the tool class map. Every other name is a key. |
| Seeds.CorrectedToolSeedsDistinct | databases/seeds.py:55-66 | With the corrected spelling, the ten seeded names are distinct. |
| Seeds.CorrectedToolSeedsCoverMap | bedrock/factory.py:19-30 | With the corrected spelling, the seeded names are exactly the keys of the tool class map. |
| Seeds.SeedLlmOutcome | databases/seeds.py:77-93 | A failed LLM seeding leaves the table unchanged. |
| Seeds.SeedLlm | databases/seeds.py:77-93 | Changes the llms table as `SeedLlmOutcome` describes. |
| Seeds.SeedLlmMissingDisplayName | databases/seeds.py:83-90 | As written, LLM seeding on an empty table always fails on the NOT NULL `display_name`. Nothing is stored and the drawn id is used up. |
| Seeds.SeedLlmCorrected | databases/seeds.py:83-90 | With a display name, LLM seeding on an empty table stores the default LLM as the only record. The client settings built from that record are ap-southeast-1, Claude Sonnet 4.5, temperature "0.7", 4096 tokens and no guardrail. |
| Seeds.LlmRowStored | databases/seeds.py:83-90 | The stored default LLM holds the given settings and no guardrail. |
| Seeds.SeededLlmConverse | bedrock/converse.py:9-25 | The Bedrock settings for the seeded LLM record. |
| Seeds.LlmSeedColumnsGiven | databases/seeds.py:83-90 | Every keyword of the LLM seed is an llms column and carries a value. |
| Seeds.LlmRequiredCovered | databases/models.py:11-23 | A record that gives name, display name and model id covers every required LLM column. |
| Seeds.ToolEntries | databases/seeds.py:112 | The agent's tool list has one `{id, name}` entry per enabled tool. |
| Seeds.SeedAgentOutcome | databases/seeds.py:95-123 | A failed agent seeding leaves the table unchanged. |
| Seeds.SeedAgent | databases/seeds.py:95-123 | Changes the agents table as `SeedAgentOutcome` describes. |
| Seeds.SeedAgentSpec | databases/seeds.py:97-122 | On an empty agents table with an LLM stored, stores exactly "Yang-Agent": it uses the first LLM's id, has the prompt, and lists the enabled tools. With no LLM, the seeding fails and stores nothing. With an agent present, nothing changes. |
| Seeds.SeededToolsDecode | bedrock/factory.py:103-104 | The tool list that agent seeding stores is read back by the agent factory entry by entry, each entry giving its record's tool class. |
| InitialData.SeedInitialData | databases/seeds.py:125-130 | The five seeders run in order. The result and the five tables are those of `InitialDataOutcome`. |
| InitialData.RunStopsAtLlm | databases/seeds.py:129-130 | A failing LLM seeder ends the run, so no agent is seeded. |
| InitialData.RunSucceeds | databases/seeds.py:125-130 | A run whose five seeders all succeed leaves each table as its seeder did. |
| InitialData.RunFailsEarly | databases/seeds.py:126-128 | A failure in seeding roles, the administrator or tools ends the run. The llms and agents tables are not touched. |
| InitialData.RunSuccessNeedsAll | databases/seeds.py:125-130 | The run succeeds only when all five seeders do. |
| InitialData.FreshAccounts | databases/seeds.py:12-52 | On empty tables, the roles are "admin" and "user", and the only user is "administrator" with the "admin" role's id. |
| InitialData.FreshTools | databases/seeds.py:54-75 | On an empty table, every listed tool is stored and nothing else. |
| InitialData.FreshSeedAsWritten | databases/seeds.py:125-130 | As written, seeding a fresh database commits the roles, the administrator and the tools. It then fails on the LLM's display name, so no LLM or agent is stored. |
| InitialData.FreshSeedCorrected | databases/seeds.py:125-130 | With the corrections, seeding a fresh database succeeds. "Yang-Agent" uses the default LLM and lists the enabled tools in a form the agent factory decodes. |
| InitialData.FreshDefaults | databases/seeds.py:77-123 | The corrected LLM seeder and then the agent seeder, on empty tables, store one LLM and one agent linked to it. |
| InitialData.AsWrittenNeverSeedsLlm | databases/seeds.py:77-93 | As written, seeding never succeeds while the llms table is empty, and no agent is ever created. |
| InitialData.SeedInitialDataRerun | databases/seeds.py:125-130 | After a successful run, a second run with any configuration succeeds and changes nothing. |
| InitialData.RerunAfterSuccess | databases/seeds.py:125-130 | After five successful seeders, the second run is idle. |
| InitialData.SecondRunIdle | databases/seeds.py:12-123 | Each seeder, rerun on the tables it left, succeeds and changes nothing. |
| Converse.IntOf | bedrock/converse.py:21 | `int(v)` accepts a decimal string exactly when it parses, and returns its value. An int is returned as is. A string that does not parse fails with "invalid literal for int() with base 10: " and at most 200 characters of its `repr`. |
| Converse.BuildConverse | bedrock/converse.py:9-25 | Fails exactly when the token limit is not an integer literal. Otherwise it carries the record's region, model id and temperature and the parsed token limit. It sets a guardrail exactly when both the guardrail id and version are truthy. |
| Converse.MaxTokensRoundTrip | bedrock/converse.py:21 | A token limit stored as the decimal text of n becomes n. |
| Converse.HalfGuardrailIgnored | bedrock/converse.py:11-15 | With only one of guardrail id and version set, no guardrail is passed. |
| Converse.MaxTokensNotInteger | bedrock/converse.py:21 | A token limit that is not an integer literal fails with Python's `int()` message, which quotes the text as `repr` does and keeps at most 200 characters of the quoted text. |
| Factory.ToolClassMapOneToOne | bedrock/factory.py:19-30 | Every tool class has exactly one name in the map. |
| Factory.MappedTools | bedrock/factory.py:66-69 | Keeps at most one class per record. |
| Factory.MappedToolsAppend | bedrock/factory.py:66-69 | The classes keep the order of the records. |
| Factory.MappedToolsMembers | bedrock/factory.py:66-69 | A class is listed exactly when some record's name maps to it. Unmapped names are dropped. |
| Factory.GetEnabledTools | bedrock/factory.py:60-71 | The loop returns the classes of the enabled tool records, in order. |
| Factory.EnabledToolsSpec | bedrock/factory.py:60-71 | A class is enabled exactly when an enabled record's name maps to it. |
| Factory.DeclaredClasses | bedrock/factory.py:103-104 | A tool list that decodes gives one class lookup per entry. |
| Factory.EntriesClasses | bedrock/factory.py:104 | Each entry's lookup is that of its name. |
| Factory.ActiveTools | bedrock/factory.py:107-108 | Keeps at most the declared tools. |
| Factory.ActiveToolsMembers | bedrock/factory.py:107-108 | A tool is active exactly when it is declared and its name is among the enabled tool names. |
| Factory.ActiveToolsAppend | bedrock/factory.py:108 | The active tools keep the declared order and any duplicates. |
| Factory.AllDeclaredActive | bedrock/factory.py:108 | When every declared tool is enabled, the active tools are the declared tools. |
| Factory.NormalNameIsLower | bedrock/factory.py:89 | The normalised model name is lower case: lower-casing it again leaves it unchanged. |
| Factory.Agent | bedrock/factory.py:87-117 | Assembles the agent: its result is `AgentOutcome`. |
| Factory.AgentIgnoresCase | bedrock/factory.py:89 | Model names are matched regardless of letter case. A missing name is treated as the empty name. |
| Factory.AgentNotFoundMessages | bedrock/factory.py:91-101 | With no LLM of that name, the factory raises "[Agent] LLM not found: …". When the LLM has no agent, it raises "[Agent] Agent not found: …" with the LLM id. |
| Factory.AgentToolsSpec | bedrock/factory.py:103-114 | The agent's tools are exactly its declared tools whose name is enabled. |
| Factory.LlmFactoryLlm | bedrock/factory.py:123-138 | "claude" gives whatever the Claude constructor gives: a model or its exception. "llama" and "gpt-oss" give None. Any other name raises "[Agent] Unsupported model". Only "claude" can give a model. Names are compared after lower-casing. |
| Factory.LlmIgnoresCase | bedrock/factory.py:125 | Names that differ only in letter case give the same model, whatever the Claude constructor does. |
| Utils.BlockDict | helpers/utils.py:45 | `model_dump(exclude_none=True)` holds exactly the fields that are set. |
| Utils.DecodeBase64Data | helpers/utils.py:15-22 | A missing or empty text gives None. Any other text gives what the decoder gives, with None for an error. |
| Utils.DecodeCases | helpers/utils.py:15-22 | The result is None exactly for None, for "" and for text the decoder rejects. |
| Utils.FormatAll | helpers/utils.py:32-66 | Gives one formatted message per input message. |
| Utils.FormatAgentMessages | helpers/utils.py:24-68 | The nested loops return `FormatAll` of the messages. |
| Utils.FormatKeepsMessages | helpers/utils.py:32-66 | The output has one message per input message, in order, each keeping its role. |
| Utils.StringContentWrapped | helpers/utils.py:34-40 | String content becomes exactly one text block holding the stripped string. |
| Utils.FormatBlockCases | helpers/utils.py:47-61 | The block branches, in priority order: an image with a source, then a document, then a text block. Any other block is dropped. |
| Utils.DocumentBytesDecoded | helpers/utils.py:51-57 | A document's source bytes are replaced by their decoding, or by None when the decoding fails. |
| Utils.KeptBlocksAppend | helpers/utils.py:44-61 | The surviving blocks keep their input order. |
| Utils.KeptBlocksMembers | helpers/utils.py:44-61 | An output block is exactly the formatting of some input block. |
| Stream.Then | bedrock/stream.py:14-31 | Once an exception is raised, nothing more is yielded. |
| Stream.Finish | bedrock/stream.py:53-61 | The plain stream ends with one last chunk after the model's chunks: "\n", or the error chunk. |
| Stream.BlockEmit | bedrock/stream.py:21-25 | A content block yields nothing, or its text when that is a non-blank `str` or `bytes`. Only a text block whose text is of another type raises. |
| Stream.AgentAstreaming | bedrock/stream.py:13-31 | The event loop yields the chunks of `AgentStream`. |
| Stream.ForwardBlocks | bedrock/stream.py:21-26 | The inner loop yields the chunks of `BlocksEmit` and stops at an exception. |
| Stream.BlocksEmitStops | bedrock/stream.py:21-25 | After a block raises, the later blocks change nothing. |
| Stream.EventsEmitStops | bedrock/stream.py:18-26 | After an event raises, the later events change nothing. |
| Stream.BlocksChunks | bedrock/stream.py:22-25 | No forwarded block text is blank, as `str.strip` or `bytes.strip` judges it. |
| Stream.EventsChunks | bedrock/stream.py:18-25 | No forwarded event text is blank. |
| Stream.AgentRunChunks | bedrock/stream.py:18-26 | No chunk that the agent forwards is blank. |
| Stream.AgentStreamEnds | bedrock/stream.py:16-31 | With an agent, the stream is the forwarded texts, then exactly one last chunk: "\n", or the error chunk. "\n" occurs only as that last chunk. |
| Stream.AgentStreamNotFound | bedrock/stream.py:28-29 | A falsy agent gives the one "not found" chunk. |
| Stream.NotFoundNotBlank | bedrock/stream.py:29 | The "not found" text is not blank. |
| Stream.EventsEmitAppend | bedrock/stream.py:18-26 | The chunks keep the order in which the agent produced them. |
| Stream.BlocksForwarded | bedrock/stream.py:19-25 | Without an exception, a value is forwarded exactly when it is the non-blank `str` or `bytes` text of a text block. |
| Stream.AgentFailureLast | bedrock/stream.py:30-31 | An exception from the agent ends the stream with its error chunk, after everything forwarded before it. |
| Stream.AgentCallCorrected | bedrock/factory.py:87-117 | The corrected factory call succeeds exactly when the factory assembles an agent, which is truthy. Otherwise it carries the factory's error. |
| Stream.AgentStreamAsWritten | bedrock/stream.py:15 | As written, every agent stream is the single `TypeError` chunk. |
| Stream.AgentStreamCorrected | bedrock/stream.py:15-31 | With the call corrected, the stream is the agent's output or the factory's error. It is never "not found". |
| Stream.RoleMessage | bedrock/stream.py:46-51 | A message is added exactly for the roles user, assistant and system. |
| Stream.TextParts | bedrock/stream.py:43 | Gives at most one part per content item. |
| Stream.JoinLines | bedrock/stream.py:44 | `"\n".join` succeeds exactly when every part is a string. |
| Stream.LlmAstreaming | bedrock/stream.py:34-62 | Picks the model, builds the message list, then forwards the model's chunks. The yielded chunks are those of `LlmStream`. |
| Stream.BuildLcMessages | bedrock/stream.py:39-51 | The loop's message list is `LcMessages`: the system prompt, then each message's translation, or the error of the first message whose text cannot be joined. |
| Stream.ForwardText | bedrock/stream.py:53-61 | The loop forwards the model's chunks unchanged and in order, then "\n", or the error chunk. |
| Stream.LcMessagesNext | bedrock/stream.py:41-51 | One more message extends the list by its translation, adds nothing for an unknown role, or stops the list with its error. |
| Stream.TranslatedStops | bedrock/stream.py:41-44 | A message whose text cannot be joined ends the building of the list. |
| Stream.TranslatedAppend | bedrock/stream.py:41-51 | The messages keep their order, and a message's translation does not depend on its neighbours. |
| Stream.LcMessagesShape | bedrock/stream.py:39-51 | The list starts with the system prompt and has one entry per message with a known role. |
| Stream.OneUserMessage | bedrock/stream.py:39-47 | A single user text becomes the prompt followed by one human message. |
| Stream.FormattedMessagesBuild | bedrock/stream.py:41-44 | Building the list from formatted messages never raises. |
| Stream.LlmStreamForwards | bedrock/stream.py:36-61 | When the Claude constructor returns a model, the model's chunks are forwarded unchanged and in order, then "\n", or the error chunk. |
| Stream.LlmStreamClaudeAsWritten | bedrock/factory.py:127-128 | As written, "claude" in any letter case streams the one error chunk of the missing `claude_model_text`. |
| Stream.LlmStreamNoModel | bedrock/stream.py:36-61 | "llama" and "gpt-oss" give the "Model … not found." chunk, and so does "claude" when its constructor returns None. A Claude constructor that raises gives its error chunk. Any other name gives the factory's error chunk. |
| Authentication.SplitHeader | helpers/authentication.py:24-29 | The split succeeds exactly when the header has one space. It returns the two parts, which rejoin to the header. |
| Authentication.SplitHeaderOf | helpers/authentication.py:69 | A scheme and a credential without spaces, joined by one space, split back into themselves. |
| Authentication.VerifyYangAuthToken | helpers/authentication.py:54-91 | The guard with the secret's name corrected. Only ever returns True. Every failure is a 401 or a 400. |
| Authentication.VerifyYangAuthTokenAsWritten | helpers/authentication.py:76-83 | As written, the guard never returns True. After the scheme check it reads `app_conf.api_auth_key_name`, which `AppConfig` (helpers/config.py:8-17) does not define. |
| Authentication.YangAsWritten | helpers/authentication.py:62-91 | As written, the guard accepts no header. It refuses a missing or malformed header, or a wrong scheme, with the corrected guard's 401 or 400. A header that would reach the credential check raises the missing-attribute error, so FastAPI answers with a 500. That includes the header the corrected guard accepts. |
| Authentication.YangBasicRaisesAsWritten | helpers/authentication.py:83 | "Basic k" with the secret "k" is accepted by the corrected guard and raises `AttributeError` as written. |
| Authentication.YangFormat | helpers/authentication.py:68-74 | A header without exactly one space is a 400 "Invalid Authorization format". |
| Authentication.YangDecides | helpers/authentication.py:76-91 | For the corrected guard: a scheme other than basic is a 400. A wrong credential is a 401 "Invalid API token". Otherwise the result is True. |
| Authentication.YangAccepts | helpers/authentication.py:54-91 | The corrected guard accepts exactly a "basic" header, in any case, whose credential equals the stored API credential. |
| Authentication.SplitHeaderNeedsOneSpace | helpers/authentication.py:68-74 | A credential that contains a space makes the header malformed. |
| Authentication.YangOrder | helpers/authentication.py:62-91 | The corrected guard reports a missing header first, then a bad format, then a wrong scheme, then a wrong credential. |
| Authentication.YangIgnoresCase | helpers/authentication.py:76 | The scheme is matched regardless of letter case by the corrected guard. |
| Authentication.VerifyUserAdminAuthToken | helpers/authentication.py:11-52 | Every failure of the admin guard is a 401 or a 400. |
| Authentication.AdminDecides | helpers/authentication.py:17-52 | A missing header is a 401. A malformed header is a 400. A header `<scheme> <credential>` gets `AdminVerdict`: a scheme other than bearer is a 400, and after that the decoder decides between the claims, "Token expired" and "Invalid token". |
| Authentication.AdminAccepts | helpers/authentication.py:31-42 | The admin guard returns claims only for a bearer token that the decoder accepts, and returns exactly those claims. |
| Authentication.DictSet | helpers/authentication.py:101 | `update` keeps the keys of an existing key. A new key is appended last. |
| Authentication.DictSetLookup | helpers/authentication.py:101 | After `update`, the key holds the new value. Every other key holds its old value. |
| Authentication.PyDict.constructor | helpers/authentication.py:97 | A dictionary holds the given entries. |
| Authentication.PyDict.Copy | helpers/authentication.py:97 | `copy()` is a fresh dictionary with the same entries. |
| Authentication.PyDict.Update | helpers/authentication.py:101 | Updates the entries in place, as `DictSet` describes. |
| Authentication.TokenClaims | helpers/authentication.py:96-101 | A falsy expiry leaves the payload as it is. A truthy expiry sets "exp". |
| Authentication.CreateJwtToken | helpers/authentication.py:96-104 | Encodes `TokenClaims` of the payload. The caller's dictionary is never written. |
| Authentication.TokenClaimsKeys | helpers/authentication.py:100-101 | Only "exp" changes. It is the expiry when the expiry is truthy, and the payload's own value otherwise. |
| Authentication.TokenClaimsOrder | helpers/authentication.py:100-101 | The payload's keys keep their order, and a new "exp" goes after them. |
| Authentication.LoginTokenNeverExpires | routers/login.py:47-55 | Login tokens carry exactly sub, username, email, fullname and role, and no "exp". |
| PyText.StripEmptyIffAllSpace | bedrock/stream.py:24 | `text.strip()` is empty exactly when every character is whitespace. |
| PyText.StripSpec | helpers/utils.py:38 | `strip` removes exactly a whitespace prefix and a whitespace suffix. What remains neither starts nor ends with whitespace. |
| PyText.LowerIdempotent | bedrock/factory.py:89 | Lower-casing twice is lower-casing once. |
| PyText.LowerIsLower | bedrock/factory.py:89 | `lower()` gives a string that it leaves unchanged. A string that `lower()` leaves unchanged is its own lower case. Lower-casing neither adds nor removes spaces. |
| PyText.LowerCodeFacts | bedrock/factory.py:89 | On code points, the one-to-one lower-case mapping of Unicode 15.0 is idempotent and maps scalar values to scalar values. No other code point maps to U+0130. A code point maps into ASCII exactly when it is ASCII or the Kelvin sign U+212A. |
| PyText.LowerCharFixed | bedrock/factory.py:89 | Lowering a character twice is lowering it once. No character other than U+0130 maps to U+0130. |
| PyText.LowerCharAscii | bedrock/factory.py:89 | A character lowers into ASCII exactly when it is ASCII or the Kelvin sign. ASCII characters other than capitals are unchanged. |
| PyText.LowerOf | bedrock/factory.py:89 | A character's lower case contains a space exactly when the character is a space. |
| PyText.LowerAccented | bedrock/factory.py:89 | Lower-casing goes beyond ASCII: "CLAUDÉ" lowers to "claudé". |
| PyText.LowerSpecialCapitals | bedrock/factory.py:89 | The dotted capital I lowers to two characters, and the Kelvin sign lowers to "k". |
| PyText.StrRepr | bedrock/converse.py:21 | `repr(s)` starts and ends with the quote it chooses: a double quote when `s` holds a single quote and no double quote, otherwise a single quote. |
| PyText.StrReprRoundTrip | bedrock/converse.py:21 | Reading `repr(s)` back as a string literal gives `s`: every escape is undone and the quote is never left unescaped inside. |
| PyText.HexRoundTrip | bedrock/converse.py:21 | The `w`-digit hex text of `n`, for `n` below 16 to the power `w`, reads back as `n`. |
| PyText.StrReprPrefersDoubleQuotes | bedrock/converse.py:21 | `repr("it's")` is `"it's"`. |
| PyText.StrReprEscapesControls | bedrock/converse.py:21 | Tabs, newlines and backslashes are written as two-character escapes. |
| PyText.StrReprEscapesNonPrintable | bedrock/converse.py:21 | A zero-width space is not printable and is written as `\u200b`. |
| PyText.Truncate | bedrock/converse.py:21 | Keeps a prefix of at most `n` items, and everything when there are no more than `n`. |
| PyText.ParseShowInt | bedrock/converse.py:21 | `int(str(n)) == n`. |
| PyText.OtherRunZero | bedrock/converse.py:21 | A non-ASCII decimal digit lies in a run of ten digits that starts at the run's zero. The runs are those of Unicode 15.0. |
| PyText.DecimalValue | bedrock/converse.py:21 | A decimal digit of any script has a value below ten. |
| PyText.AsciiDecimal | bedrock/converse.py:21 | An ASCII digit has its usual value. |
| PyText.ParseIntArabicIndic | bedrock/converse.py:21 | `int()` reads Arabic-Indic digits like ASCII ones: "+٤٢" is 42. |
| PyText.ParseIntMixedScripts | bedrock/converse.py:21 | `int()` accepts fullwidth and ASCII digits mixed in one literal, with a sign and an underscore: "-４_2" is -42. |
| PyText.JoinSplit | helpers/authentication.py:24 | Splitting on a character and joining back on it gives the original string. |

## Left out

- **Not modelled:**
  - `joinedload` and the database server's foreign-key checks, because no modelled operation reads a related record or writes a dangling key. The one relationship effect an operation has is modelled: the ORM sets the children's key to NULL when `delete_llm` or `delete_user` deletes the parent (`Tables.Orphaned`);
  - timestamps, because they come from the database server's clock;
  - column length limits, because no modelled operation depends on them;
  - column type checks.
  
  Records hold whatever values they are given.
- **Order and id generation.** The model assumes that select-all queries return records in insertion order. Without ORDER BY, PostgreSQL promises no order, and an update can move a row. Ids come from one counter per table. A rolled-back insert consumes an id.
- **I/O is not modelled.** The following are parameters:
  - asyncio scheduling, sessions, logging, Secrets Manager, the prompt files and the generated admin password;
  - the argon2 hash, `jwt.encode`, `jwt.decode` and `base64.b64decode`.
- **Authentication calls left out.** `verify_user_password` and the database lookup behind the current user are calls into libraries and routers outside this core.
- **Routers and application start-up are not part of this model.** The exception is the login payload, in `Authentication.LoginTokenNeverExpires`. The routers' prefixes read `app_conf.api_version_web`, which `AppConfig` (helpers/config.py:8-17) does not define either. Of the fields this core reads, only `api_auth_key_name` is missing (see Findings).
- **Plain select-all queries.** `get_users`, `get_tools`, `get_llms` and `get_agents` return a table's records unchanged and have no member. `get_enabled_llms` is `Crud.GetEnabled`. `get_message`, `get_user`, `get_tool`, `get_llm` and `get_agent` are `Crud.GetById`. `get_tool_by_name`, `get_llm_by_name` and `get_agent_by_name` are `Crud.GetByName`.
- Factory.Agent: `get_agent_by_llm_id` and a tool class's `.name` are parameters (`agentFor`, `nameOf`). `create_agent` returns the assembled configuration, not a LangChain agent. databases/crud.py defines no `get_agent_by_llm_id`. As written, the import at bedrock/factory.py:31 raises `ImportError`, so bedrock/factory.py cannot load, and neither can bedrock/stream.py and databases/seeds.py, which import it. The model assumes the import resolves. The model name is lower-cased by `PyText.Lower`, which agrees with Python's `str.lower` on every name except one where a capital sigma ends a word (see PyText.Lower). For such a name, the LLM lookup and the "LLM not found" message use σ where Python uses ς.
- Factory.LlmFactoryLlm: what `claude_model_text()` gives is a parameter (`claude`): the model's truthiness or the exception's message. bedrock/converse.py defines no `claude_model_text`, so as written the call raises `AttributeError`. That case is `Factory.ClaudeModelTextAsWritten` (see Findings). `ChatBedrockConverse` and the boto3 client are the record of settings they are built from. The name is lower-cased by `PyText.Lower`, which agrees with Python's `str.lower` except for the final-sigma rule (see PyText.Lower). Such a name is refused either way, but the "Unsupported model" message shows σ where Python shows ς.
- Converse.BuildConverse: does not model `float(model_temperature)`. The temperature string is passed on as it is, so a temperature that is not a number is not reported as an error.
- Utils.FormatAgentMessages: does not model the branch for content given as a raw dict. Request validation always gives content blocks as models.
- PyText.ParseInt: knows the decimal digits of Unicode 15.0, the version in Python 3.12. Python 3.13's Unicode 15.1 adds no digits or case mappings. Later Python versions add runs of digits that the model does not accept.
- PyText.Lower: applies the one-to-one lower-case mapping of Unicode 15.0 to each character, plus the special case U+0130, which lowers to "i" and a combining dot. It does not model the final-sigma rule: Python lowers a capital sigma that ends a word to the final sigma ς, and the model lowers it to σ. Later Unicode versions add mappings that the model lacks.
- Factory.NormalNameIsLower: a model name in which a capital sigma ends a word is normalised with σ, where Python gives ς. `Factory.NormalName` then differs from Python's `(model_name or "").lower()`, and `Factory.Agent` looks up a different name. The gap comes from `PyText.Lower`.
- Factory.AgentIgnoresCase: holds for the model's `Lower`, so it does not cover the final-sigma rule (see PyText.Lower).
- Factory.LlmIgnoresCase: holds for the model's `Lower`, so it does not cover the final-sigma rule (see PyText.Lower). Every name that `LLMFactory.llm` accepts is ASCII, so only the text of the "[Agent] Unsupported model" error can differ from Python's.
- Converse.IntOf: `repr` of a string escapes the control characters, the separators, the format characters, the surrogates and the private-use characters. The model writes unassigned code points as they are, where Python escapes them. The message is therefore exact for every string without unassigned code points. The 4300-digit limit of `int()` is not modelled.
- **Stream events are scripted.** The agent's and the model's streams are finite sequences of events, ending in an optional exception. `asyncio.sleep(0)` has no observable effect here.
- **Parameters of `agent_astreaming` and `llm_astreaming`.** `chat_id` and `stream_mode` are passed through unused.

## Findings

| source | as written | input that shows it | evidently intended | confidence | as-written member | corrected member |
|---|---|---|---|---|---|---|
| bedrock/stream.py:15 | The agent factory is called with an `agent_name` keyword that `AgentFactory.agent` does not accept, so the call raises `TypeError` | any request to the agent stream | call the factory with the model name only | not executed | Stream.AgentStreamAsWritten | Stream.AgentStreamCorrected |
| databases/seeds.py:61 | The sixth tool is seeded as "google_trend", but the tool class map's key is "google_trends" | enabling that tool record: `get_enabled_tools` finds no class for it | seed "google_trends" | not executed | Seeds.ToolSeedUnmapped | Seeds.CorrectedToolSeedsCoverMap |
| bedrock/factory.py:127-128 | `LLMFactory.llm("claude")` calls `self.chat_converse.claude_model_text()`, which `Converse` does not define, so the call raises `AttributeError` | any plain-model stream for "claude" | a `Converse` method that builds the Claude text model | not executed | Stream.LlmStreamClaudeAsWritten | Stream.LlmStreamForwards |
| databases/seeds.py:83-90 | The default LLM is built without `display_name`, a NOT NULL column with no default | start-up on an empty llms table: the insert fails, no LLM is stored and no agent is seeded | give a display name | not executed | Seeds.SeedLlmMissingDisplayName | Seeds.SeedLlmCorrected |
| helpers/authentication.py:83 | `verify_yang_auth_token` reads `app_conf.api_auth_key_name`, but `AppConfig` (helpers/config.py:8-17) has no such field, so the lookup raises `AttributeError` | the header "Basic k" | read the API key's secret name from a field `AppConfig` defines | not executed | Authentication.YangBasicRaisesAsWritten | Authentication.YangAccepts |
