# Npgsql value-encoding core, modelled in Dafny

Npgsql is the .NET driver for PostgreSQL. This project models the part of it that can be reasoned about without a server, with byte buffers as `seq<byte>` and a read position:

- **Byte counts and the writer.** The tri-state `Size` (unknown, exact, upper bound) and how sizes combine. `PgWriter`'s flush modes and its buffering decisions.
- **The column stream.** `ColumnStream`, the bounded and optionally seekable view over one column of the read buffer.
- **The composite codecs.** `RangeConverter` and the older `NpgsqlRangeHandler` use PostgreSQL's binary range layout: a flags byte, then a length-prefixed payload for each finite bound. `HstoreConverter` uses the hstore binary layout: a count, then length-prefixed keys and values, with -1 for a null value. `NullableConverter` wraps another converter. Each of them measures first, filling a write state, and then writes.
- **The resolvers.** `PgComposingConverterResolver` with its identity-keyed converter cache. The built-in, NodaTime and NetTopologySuite type-handler resolvers, which are lookup tables from OID, `NpgsqlDbType`, type name or CLR type to a handler. `ConnectorTypeMapper`, which chains those resolvers with its caches and the database catalogue. `TimestampHandler`'s guards.
- **Auto-prepare.** `PreparedStatementManager`, with its least-used candidate table and its least-recently-used table of auto-prepared slots. `NpgsqlStatement` and `NpgsqlPreparedStatementHandle`.
- **Logical replication.** The TupleData part of PostgreSQL's logical replication message format, as it is walked by `InsertMessage`'s tuple enumerator, `ReplicationValue` and the sequential `ReplicationDataReader`. Each column is a kind byte (`n` null, `u` unchanged TOAST, `t` text, `b` binary), and text and binary columns carry a big-endian Int32 length and the payload.
- **The builders.** `NpgsqlSlimDataSourceBuilder`'s resolver chain, which holds at most one resolver per runtime type with the most recent first, together with its guards and its choice of data source. `NpgsqlDataSourceBuilder`'s prepared-statement names and its own choice of data source.

Each source file is one module; `Wrappers` (`Option`, `Result`, the exception kinds) and `Wire` (bytes and the big-endian Int32 codec) are shared.

**How the code is modelled.**

- Mutable objects are classes, with `modifies` clauses on their methods. Each method's `ensures` ties its new state to a specification function of the old one, for example `SeekToColumnSequential` to `SeekToColumn`, or `Write` to `WriteSpec`. The properties are then proved about those functions.
- A thrown exception is an `Err` result carrying the exception's kind.
- A read past the end of the buffered data is `Err(EndOfData)`, which stands for the driver waiting for more network data.
- Subtype converters and text encodings are function-valued parameters, constrained by a coherence predicate (decoding inverts encoding).

`NpgsqlReadBuffer.cs`, `NpgsqlWriteBuffer.cs`, `RelationMessage.cs`, `Field.cs` and `NpgsqlDatabaseInfo.cs` are not part of this model. The modules `ReadBuffers`, `TypeHandlers` and `ClrTypes` are the minimal stand-ins for them that the core needs.

## Model

| member | source | states |
|---|---|---|
| `Sizes.Size.Value` | src/Npgsql/Internal/Size.cs:22-23 | the stored count for Exact and UpperBound sizes; `InvalidOperationException` exactly when the size is Unknown |
| `Sizes.Create` | src/Npgsql/Internal/Size.cs:27 | an Exact size whose value is the given count (also the implicit int conversion, line 40) |
| `Sizes.CreateUpperBound` | src/Npgsql/Internal/Size.cs:28 | an UpperBound size whose value is the given count |
| `Sizes.FactoriesAgree` | src/Npgsql/Internal/Size.cs:27-30 | the factories build the kinds they name, `Zero` is `Create(0)`, and `Unknown.Value` throws |
| `Sizes.Size.Combine` | src/Npgsql/Internal/Size.cs:32-38 | an Unknown receiver or argument gives back the receiver; two known sizes give an Exact size whose value is the sum of their counts |
| `Sizes.CombineUnknown` | src/Npgsql/Internal/Size.cs:34-35 | an Unknown receiver absorbs any argument, while an Unknown argument leaves the receiver unchanged: `Combine` is not symmetric |
| `Sizes.CombineKnown` | src/Npgsql/Internal/Size.cs:37 | two known sizes combine to the Exact sum whatever their kinds, so an UpperBound is not preserved |
| `Sizes.CombineZero` | src/Npgsql/Internal/Size.cs:30-40 | combining a known size with `Zero`, on either side, keeps its count and makes it Exact |
| `Sizes.CombineAllSkipsUnknown` | src/Npgsql/Internal/Size.cs:32-38 | a running total that starts known stays known and equals the start plus the known parts; Unknown parts are skipped |
| `Sizes.CombineAllFromUnknown` | src/Npgsql/Internal/Size.cs:34-35 | a running total that starts Unknown stays Unknown whatever is added |
| `PgWriters.PgWriter.constructor` | src/Npgsql/Internal/PgWriter.cs:25-28 | a writer over an empty buffer with no flush mode, no suppression and unknown current size |
| `PgWriters.PgWriter.Mode` | src/Npgsql/Internal/PgWriter.cs:45 | None while flushes are suppressed, the stored mode otherwise |
| `PgWriters.PgWriter.Initialize` | src/Npgsql/Internal/PgWriter.cs:30-37 | the stored flush mode becomes the given one |
| `PgWriters.PgWriter.Reset` | src/Npgsql/Internal/PgWriter.cs:39-43 | the stored flush mode becomes None |
| `PgWriters.PgWriter.SuppressFlushes` | src/Npgsql/Internal/PgWriter.cs:66 | flushes are suppressed, so the reported mode is None |
| `PgWriters.PgWriter.RestoreFlushes` | src/Npgsql/Internal/PgWriter.cs:67 | suppression ends and the reported mode is the stored one again |
| `PgWriters.PgWriter.ShouldFlush` | src/Npgsql/Internal/PgWriter.cs:168-177 | measures the requirement, or the current size when the requirement is Unknown; `InvalidOperationException` exactly when that is Unknown, `ArgumentOutOfRangeException` exactly when it exceeds a known `BufferSize`, otherwise true exactly when a known `Remaining` is below it (null compares false) |
| `PgWriters.PgWriter.CanWriteBuffered` | src/Npgsql/Internal/PgWriter.cs:54-64 | an Unknown current size gives (true, no flush); otherwise the result is `BufferSize >= size` and the flush flag `Remaining < size`, each false when the nullable side is null |
| `PgWriters.PgWriter.Ensure` | src/Npgsql/Internal/PgWriter.cs:77-83 | flushes exactly when the free space is below `count`, and never changes the written byte stream |
| `PgWriters.PgWriter.Flush` | src/Npgsql/Internal/PgWriter.cs:93-102 | `NotSupportedException` exactly when the reported mode is NonBlocking; otherwise a no-op |
| `PgWriters.PgWriter.FlushAsync` | src/Npgsql/Internal/PgWriter.cs:104-113 | `NotSupportedException` exactly when the reported mode is Blocking; a buffer flush in NonBlocking mode, and a no-op in None |
| `PgWriters.PgWriter.WriteByte` | src/Npgsql/Internal/PgWriter.cs:115 | the written byte stream grows by that byte |
| `PgWriters.PgWriter.WriteInt32` | src/Npgsql/Internal/PgWriter.cs:118 | the written byte stream grows by the big-endian two's-complement encoding of the value |
| `PgWriters.PgWriter.WriteBytes` | src/Npgsql/Internal/PgWriter.cs:147-151 | `WriteRaw` carried out as its comment asks, looping and flushing: a payload of any length, flushing whenever the buffer is full; the written byte stream grows by exactly the payload |
| `PgWriters.PgWriter.WriteLengthPrefixed` | src/Npgsql/Internal/PgWriter.cs:77-83 | `Ensure(4)`, then the 4-byte length, then the payload: the stream grows by the length's encoding followed by the payload |
| `ColumnStreams.ValidateArguments` | src/Npgsql/Internal/NpgsqlReadBuffer.Stream.cs:229-239 | accepts exactly a present array with non-negative offset and count inside it; a null array is `ArgumentNullException`, a negative offset or count `ArgumentOutOfRangeException`, and an overrun `ArgumentException`, in that order |
| `ColumnStreams.SeekTarget` | src/Npgsql/Internal/NpgsqlReadBuffer.Stream.cs:89-120 | the buffer and stream positions each origin lands on, with 32-bit wrap-around; never a buffer position before the start; a target before the start is `IOException`, an unknown origin `ArgumentOutOfRangeException` |
| `ColumnStreams.SeekKeepsWindow` | src/Npgsql/Internal/NpgsqlReadBuffer.Stream.cs:89-117 | with no wrap-around, a successful seek keeps buffer position = start + stream position and lands on offset, position + offset or length + offset for Begin, Current and End |
| `ColumnStreams.SeekPastEndAccepted` | src/Npgsql/Internal/NpgsqlReadBuffer.Stream.cs:109-117 | nothing bounds a seek from above: any offset past the end within the 32-bit range is accepted |
| `ColumnStreams.ReadAfterSeekPastEndThrows` | src/Npgsql/Internal/NpgsqlReadBuffer.Stream.cs:160-165 | counterexample: after seeking one byte past the end of a 2-byte column, the code's read count is negative and `Span.Slice` throws instead of reporting the end |
| `ColumnStreams.ReadCountAsWritten` | src/Npgsql/Internal/NpgsqlReadBuffer.Stream.cs:160-165 | as written: the count `min(span, length - position)` fails with `ArgumentOutOfRangeException` exactly when the position is past the end, and is otherwise at most the span and the bytes left |
| `ColumnStreams.ReadCount` | src/Npgsql/Internal/NpgsqlReadBuffer.Stream.cs:160-163 | the corrected count: never more than requested, `min(request, length - position)` before the end, and 0 at or past the end |
| `ColumnStreams.ReadCountAgrees` | src/Npgsql/Internal/NpgsqlReadBuffer.Stream.cs:160-165 | the corrected count equals the code's wherever the code does not throw, and the code throws exactly when the position is past the end |
| `ColumnStreams.ColumnStream.constructor` | src/Npgsql/Internal/NpgsqlReadBuffer.Stream.cs:26-32 | a new stream is disposed until `Init` |
| `ColumnStreams.ColumnStream.Init` | src/Npgsql/Internal/NpgsqlReadBuffer.Stream.cs:34-43 | start at the buffer's read position, the given length, position 0, the given seekability, not disposed |
| `ColumnStreams.ColumnStream.CheckDisposed` | src/Npgsql/Internal/NpgsqlReadBuffer.Stream.cs:197-201 | `ObjectDisposedException` exactly when disposed |
| `ColumnStreams.ColumnStream.Length` | src/Npgsql/Internal/NpgsqlReadBuffer.Stream.cs:51-58 | the current length, or `ObjectDisposedException` exactly when disposed |
| `ColumnStreams.ColumnStream.Position` | src/Npgsql/Internal/NpgsqlReadBuffer.Stream.cs:63-69 | the bytes read so far, or `ObjectDisposedException` exactly when disposed |
| `ColumnStreams.ColumnStream.Flush` | src/Npgsql/Internal/NpgsqlReadBuffer.Stream.cs:123-124 | fails exactly when disposed |
| `ColumnStreams.ColumnStream.SetLength` | src/Npgsql/Internal/NpgsqlReadBuffer.Stream.cs:60-61 | always `NotSupportedException` |
| `ColumnStreams.ColumnStream.Write` | src/Npgsql/Internal/NpgsqlReadBuffer.Stream.cs:194-195 | always `NotSupportedException` |
| `ColumnStreams.ColumnStream.Seek` | src/Npgsql/Internal/NpgsqlReadBuffer.Stream.cs:78-121 | disposed, then not seekable, then an offset above `int.MaxValue` are refused in that order; otherwise the stream and buffer move to `SeekTarget`'s positions, and a refused seek moves nothing |
| `ColumnStreams.ColumnStream.SetPosition` | src/Npgsql/Internal/NpgsqlReadBuffer.Stream.cs:70-75 | a negative position is `ArgumentOutOfRangeException`; otherwise a seek from the beginning that leaves the buffer at start + value |
| `ColumnStreams.ColumnStream.Read` | src/Npgsql/Internal/NpgsqlReadBuffer.Stream.cs:153-169 | corrected count: `ObjectDisposedException` exactly when disposed; otherwise at most `ReadCount` bytes, exactly the next bytes of the buffer, all of them when the buffer holds them, with position and buffer advanced by the bytes read; nothing is read at or past the end, where the code as written throws (`ReadCountAsWritten`) |
| `ColumnStreams.ColumnStream.ReadInto` | src/Npgsql/Internal/NpgsqlReadBuffer.Stream.cs:140-144 | the arguments are validated first and a refusal reads nothing; otherwise exactly `Read(count)`: `ObjectDisposedException` exactly when disposed, else at most `ReadCount(count)` bytes, the next bytes of the buffer, all of them when buffered, with position and buffer advanced by the bytes read, and nothing moved on a failure |
| `ColumnStreams.ColumnStream.ReadByte` | src/Npgsql/Internal/NpgsqlReadBuffer.Stream.cs:133-138 | through the corrected `Read`: the next buffer byte, advancing the position by one, or -1 without moving at or past the end; never -1 while column and buffer have bytes left |
| `ColumnStreams.ColumnStream.Dispose` | src/Npgsql/Internal/NpgsqlReadBuffer.Stream.cs:213-226 | idempotent; the first disposing call skips the unread rest of the column unless the connector is broken, and a skip past the buffered data leaves the stream undisposed |
| `NullableConverters.CustomDbNullPredicate` | src/Npgsql/Internal/Converters/NullableConverter.cs:15-17 | the wrapper has a custom null predicate exactly when the inner converter does |
| `NullableConverters.IsDbNullValue` | src/Npgsql/Internal/Converters/NullableConverter.cs:19-20 | an absent value is DB-null, and a present one exactly when the inner converter deems it null |
| `NullableConverters.Widen` | src/Npgsql/Internal/Converters/NullableConverter.cs:25-29 | a known requirement becomes an UpperBound with the same count; Unknown stays Unknown |
| `NullableConverters.WidenIdempotent` | src/Npgsql/Internal/Converters/NullableConverter.cs:26-29 | widening a widened requirement changes nothing |
| `NullableConverters.WidenBounds` | src/Npgsql/Internal/Converters/NullableConverter.cs:25-29 | a widened requirement still bounds every size the original covered |
| `NullableConverters.CanConvert` | src/Npgsql/Internal/Converters/NullableConverter.cs:22-31 | the inner converter's answer, with the read and the write requirement each widened |
| `NullableConverters.Read` | src/Npgsql/Internal/Converters/NullableConverter.cs:33-34 | the inner converter's value, never null |
| `NullableConverters.GetSize` | src/Npgsql/Internal/Converters/NullableConverter.cs:56-62 | a known buffer requirement comes back as an Exact size without asking the inner converter; otherwise the inner size of the value, or of the default when the value is absent |
| `NullableConverters.Write` | src/Npgsql/Internal/Converters/NullableConverter.cs:64-65 | the inner converter's bytes for the value, or for the default when the value is absent |
| `NullableConverters.NullableRoundTrip` | src/Npgsql/Internal/Converters/NullableConverter.cs:33-65 | when the inner converter round-trips, every present value reads back as itself |
| `NullableConverters.NullWriteReadsDefault` | src/Npgsql/Internal/Converters/NullableConverter.cs:64-65 | an absent value that reaches `Write` reads back as the default value, not as null |
| `NullableConverters.EffectiveResolution` | src/Npgsql/Internal/Converters/NullableConverter.cs:88-91 | always a resolution: the effective info's default one for an absent value, its value-based one for a present value |
| `NullableConverters.NewNullableResolver` | src/Npgsql/Internal/Converters/NullableConverter.cs:79-86 | a valid composing resolver with the effective type's id, an empty cache, identity id mappings in both directions and the resolution above |
| `NullableConverters.NullableResolverConstructs` | src/Npgsql/Internal/Converters/NullableConverter.cs:79-80 | the composing constructor's id check cannot fail, since the effective id is passed as the resolver's own |
| `NullableConverters.NullableEffectiveTypeIdIsIdentity` | src/Npgsql/Internal/Converters/NullableConverter.cs:82-83 | the effective type id the resolver reports is the id it was given |
| `ConverterResolvers.Validate` | src/Npgsql/Internal/PgConverterResolver.cs:68-87 | accepts exactly a resolution with a converter, of the expected type unless that type is `object`, whose id is in canonical form (no OID when portable ids are expected, no data-type name otherwise) and equals any expected id; every refusal is `InvalidOperationException` |
| `ConverterResolvers.ValidateObjectAcceptsAnyType` | src/Npgsql/Internal/PgConverterResolver.cs:73-78 | an `object` resolver accepts a converter of any type when the id is canonical |
| `ConverterResolvers.ValidateDefaultIdIsCanonical` | src/Npgsql/Internal/PgConverterResolver.cs:80-81 | an id that is neither an OID nor a name passes the canonical-form check in both modes |
| `ConverterResolvers.ConstructorCheck` | src/Npgsql/Internal/PgConverterResolver.cs:133-140 | `ArgumentNullException` exactly when no id is given but the effective info has one |
| `ConverterResolvers.ComposingResolver.constructor` | src/Npgsql/Internal/PgConverterResolver.cs:133-140 | callable only when the id check passes; stores the ids, the effective info and the mappings, with an empty cache |
| `ConverterResolvers.ComposingResolver.GetEffectiveTypeId` | src/Npgsql/Internal/PgConverterResolver.cs:169-177 | the effective info's id (or the default id) when asked for the resolver's own id, the subclass mapping otherwise |
| `ConverterResolvers.ComposingResolver.OuterId` | src/Npgsql/Internal/PgConverterResolver.cs:151 | the given id, else the resolver's own id, else the effective id mapped back |
| `ConverterResolvers.ComposingResolver.GetOrAdd` | src/Npgsql/Internal/PgConverterResolver.cs:179-186 | a null converter key is `ArgumentNullException`; otherwise the cached composed converter for that inner converter, created once and then returned unchanged, wrapping exactly that inner converter |
| `ConverterResolvers.ComposingResolver.GetDefault` | src/Npgsql/Internal/PgConverterResolver.cs:147-152 | succeeds exactly when the effective default resolution has a converter; the result wraps that converter and carries `OuterId` |
| `ConverterResolvers.ComposingResolver.Get` | src/Npgsql/Internal/PgConverterResolver.cs:154-161 | no effective resolution gives null without touching the cache; otherwise the wrapped converter with `OuterId` of the expected id |
| `ConverterResolvers.ComposingResolver.GetField` | src/Npgsql/Internal/PgConverterResolver.cs:163-167 | resolves the field with its id mapped to the effective id, and answers with the field's own id |
| `ConverterResolvers.ComposingResolver.GetDefaultInternal` | src/Npgsql/Internal/PgConverterResolver.cs:52-58 | no effective converter is `ArgumentNullException`; when validation is asked for, `InvalidOperationException` exactly when the outer id is not canonical for the requested id; otherwise `GetDefault`'s resolution, carrying the outer id and wrapping the effective converter, and it passes `Validate` |
| `ConverterResolvers.ComposingResolver.GetFieldInternal` | src/Npgsql/Internal/PgConverterResolver.cs:60-66 | no effective converter is `ArgumentNullException`; when the type info asks for validation, `InvalidOperationException` exactly when the field's id is not canonical; otherwise `GetField`'s resolution, with the field's id and the wrapped effective converter, and it passes `Validate` |
| `ConverterResolvers.ComposingResolver.GetInternal` | src/Npgsql/Internal/PgConverterResolver.cs:110-116 | no effective resolution passes through as null; no effective converter is `ArgumentNullException`; when validation is asked for, `InvalidOperationException` exactly when the outer id is not canonical; otherwise `Get`'s resolution, with the outer id and the wrapped effective converter, and it passes `Validate` |
| `Ranges.EmptyRange` | src/Npgsql/Internal/Converters/RangeConverter.cs:35-36 | the empty range has the Empty flag and neither bound infinite |
| `Ranges.MakeInfinite` | src/Npgsql/Internal/Converters/RangeConverter.cs:139-143 | the bound becomes infinite and exclusive, and every other flag bit is kept |
| `Ranges.MakeLowerInfiniteKeepsOthers` | src/Npgsql/Internal/Converters/RangeConverter.cs:139-140 | normalising the lower bound leaves the Empty flag and both upper-bound flags unchanged |
| `Ranges.MakeUpperInfiniteKeepsOthers` | src/Npgsql/Internal/Converters/RangeConverter.cs:142-143 | normalising the upper bound leaves the Empty flag and both lower-bound flags unchanged |
| `Ranges.FlagsByteRoundTrip` | src/Npgsql/Internal/Converters/RangeConverter.cs:34 | the flags byte written by `Write` (line 148) reads back as the same flags |
| `RangeConverters.CheckSubtype` | src/Npgsql/Internal/Converters/RangeConverter.cs:15-21 | the constructor accepts exactly a subtype converter that supports the binary format, and refuses any other with `NotSupportedException` |
| `RangeConverters.SizeOrDbNull` | src/Npgsql/Internal/Converters/RangeConverter.cs:95 | nothing for a null bound, otherwise the subtype's Exact size and nested write state |
| `RangeConverters.GetSizeTotal` | src/Npgsql/Internal/Converters/RangeConverter.cs:84-121 | the measured size is Exact: 1 for an empty range, otherwise 1 plus 4 for each non-infinite bound plus the subtype size of each non-null one |
| `RangeConverters.GetSizeRecords` | src/Npgsql/Internal/Converters/RangeConverter.cs:90-119 | each non-null finite bound's size and nested state go into its own slot; a null upper bound is recorded as -1, and a null lower bound as -1 only if a state already exists, which it never does at that point, so it stays Unknown when the upper bound is present |
| `RangeConverters.WrittenFlags` | src/Npgsql/Internal/Converters/RangeConverter.cs:135-144 | an empty range's flags are kept; otherwise a finite bound whose recorded size is -1 becomes infinite, and the Empty flag is never touched |
| `RangeConverters.WriteBound` | src/Npgsql/Internal/Converters/RangeConverter.cs:152-177 | nothing for an infinite bound; a failure (reading an Unknown size) with nothing written; otherwise the recorded length as Int32 and then the nested write |
| `RangeConverters.Write` | src/Npgsql/Internal/Converters/RangeConverter.cs:129-179 | always emits at least the flags byte; nothing more for an empty range |
| `RangeConverters.ReadBound` | src/Npgsql/Internal/Converters/RangeConverter.cs:43-79 | an infinite bound or a length of -1 gives the default value; otherwise exactly `length` bytes go to the subtype reader, and the position never runs past the input |
| `RangeConverters.ReadAt` | src/Npgsql/Internal/Converters/RangeConverter.cs:29-82 | consumes at least the flags byte and never runs past the input; no input is `EndOfData` |
| `RangeConverters.NormalizedFlags` | src/Npgsql/Internal/Converters/RangeConverter.cs:138-143 | on a non-empty range a bound is infinite on the wire exactly when it was infinite or null |
| `RangeConverters.WriteBoundReadsBack` | src/Npgsql/Internal/Converters/RangeConverter.cs:43-79 | a bound written from its measured size takes 4 + size bytes, or none if infinite, and reads back as itself, or as the default if infinite |
| `RangeConverters.WriteUsesRecords` | src/Npgsql/Internal/Converters/RangeConverter.cs:90-178 | when the recorded state covers every written bound, `Write` emits the normalised flags and each finite bound from its measured size and state |
| `RangeConverters.ReadAtBounds` | src/Npgsql/Internal/Converters/RangeConverter.cs:34-81 | on a non-empty flags byte, `Read` is the two bound reads in sequence |
| `RangeConverters.WriteMeasuredReadsBack` | src/Npgsql/Internal/Converters/RangeConverter.cs:29-179 | a measured write of a non-empty range completes, has the corrected measured length, and reads back with infinite bounds at their default |
| `RangeConverters.RoundTripWith` | src/Npgsql/Internal/Converters/RangeConverter.cs:84-179 | measuring, writing and reading back completes whenever the measured state covers the written bounds; the bytes fall short of the measured size by 4 per null finite bound unless the corrected measuring pass is used, and read back with null bounds normalised |
| `RangeConverters.NullLowerWriteFails` | src/Npgsql/Internal/Converters/RangeConverter.cs:95-102 | as written, a null finite lower bound next to a non-null finite upper bound fails in `Write` after only the flags byte went out |
| `RangeConverters.RoundTripAsWritten` | src/Npgsql/Internal/Converters/RangeConverter.cs:84-179 | as written, every other range writes and reads back normalised, but 4 bytes shorter than measured per null finite bound |
| `RangeConverters.NullUpperMeasuredTooLarge` | src/Npgsql/Internal/Converters/RangeConverter.cs:105-117 | as written, a null finite upper bound next to a present lower bound is written 4 bytes shorter than `GetSize` announced |
| `RangeConverters.RoundTripCorrected` | src/Npgsql/Internal/Converters/RangeConverter.cs:84-179 | with the corrected measuring pass every range writes exactly the measured bytes and reads back as itself with null bounds made infinite |
| `RangeConverters.RoundTripWithoutNulls` | src/Npgsql/Internal/Converters/RangeConverter.cs:84-179 | a non-empty range with two finite non-null bounds writes exactly the measured bytes and reads back unchanged |
| `RangeConverters.WriteBoundTo` | src/Npgsql/Internal/Converters/RangeConverter.cs:152-177 | on a `PgWriter`, the writer's stream grows by exactly `WriteBound`'s bytes and the result is `WriteBound`'s |
| `RangeConverters.WriteTo` | src/Npgsql/Internal/Converters/RangeConverter.cs:129-179 | on a `PgWriter`, the stream grows by exactly `Write`'s bytes, flushing as needed, with `Write`'s result |
| `RangeConverters.ReadBoundFrom` | src/Npgsql/Internal/Converters/RangeConverter.cs:43-79 | on a `ReadBuffer`, succeeds exactly when `ReadBound` does, with its value and end position |
| `RangeConverters.ReadFrom` | src/Npgsql/Internal/Converters/RangeConverter.cs:29-82 | on a `ReadBuffer`, succeeds exactly when `ReadAt` does, with its range and end position |
| `RangeConverters.EffectiveResolution` | src/Npgsql/Internal/Converters/RangeConverter.cs:205-215 | null when both bounds are infinite; the lower bound resolved against the expected id; the upper bound against the lower bound's id, or against nothing when the lower bound is infinite |
| `RangeConverters.RangeResolverId` | src/Npgsql/Internal/Converters/RangeConverter.cs:194-195 | the range type of the subtype's id when it has one, and none otherwise; the composing constructor's check cannot then fail |
| `RangeHandlers.CreateRangeHandler` | src/Npgsql/Internal/TypeHandlers/NpgsqlRangeHandler.cs:43-44 | a range of ranges is always `NotSupportedException` |
| `RangeHandlers.WriteWithLength` | src/Npgsql/Internal/TypeHandlers/NpgsqlRangeHandler.cs:124-127 | a null bound is the length -1 alone; any other bound is its Int32 length followed by its payload |
| `RangeHandlers.WriteRangeBytes` | src/Npgsql/Internal/TypeHandlers/NpgsqlRangeHandler.cs:113-128 | always starts with the flags byte exactly as given, with no normalisation |
| `RangeHandlers.WriteWithLengthReadsBack` | src/Npgsql/Internal/TypeHandlers/NpgsqlRangeHandler.cs:63-67 | a bound written with its length reads back as itself, or as the default when null, ending just after its bytes |
| `RangeHandlers.WriteRangeLength` | src/Npgsql/Internal/TypeHandlers/NpgsqlRangeHandler.cs:80-128 | the bytes `WriteRange` emits are exactly as many as `ValidateAndGetLengthRange` announced |
| `RangeHandlers.RangeHandlerRoundTrip` | src/Npgsql/Internal/TypeHandlers/NpgsqlRangeHandler.cs:52-128 | a written range reads back with its own flags, and the default value for every infinite or null bound |
| `RangeHandlers.NonEmptyRoundTrip` | src/Npgsql/Internal/TypeHandlers/NpgsqlRangeHandler.cs:60-69 | the two bounds of a non-empty range read back in order after the flags byte |
| `RangeHandlers.BoundReadsBack` | src/Npgsql/Internal/TypeHandlers/NpgsqlRangeHandler.cs:63-67 | a bound, finite or not, reads back as itself, or as the default when infinite or null |
| `RangeHandlers.LengthCache.constructor` | src/Npgsql/Internal/TypeHandlers/NpgsqlRangeHandler.cs:83 | a length cache starts at position 0 |
| `RangeHandlers.ValidateAndGetLengthRange` | src/Npgsql/Internal/TypeHandlers/NpgsqlRangeHandler.cs:80-107 | 1 plus, for a non-empty range, 4 per finite bound plus the subtype length of each non-null one; a populated cache is rewound to where it started, and an unpopulated one advances by the slots the subtype calls used |
| `RangeHandlers.WriteRange` | src/Npgsql/Internal/TypeHandlers/NpgsqlRangeHandler.cs:113-128 | on a `PgWriter`, the stream grows by exactly `WriteRangeBytes` |
| `RangeHandlers.ReadRange` | src/Npgsql/Internal/TypeHandlers/NpgsqlRangeHandler.cs:52-70 | on a `ReadBuffer`, the same wire read as the converter's, succeeding exactly when it does |
| `RangeHandlers.HandlerKeepsNullBound` | src/Npgsql/Internal/TypeHandlers/NpgsqlRangeHandler.cs:118-127 | a null finite bound goes out as a -1 length with the flags unchanged, where the converter marks it infinite; the length still matches the announced one |
| `Hstore.GetSize` | src/Npgsql/Internal/Converters/HstoreConverter.cs:22-52 | an `ArgumentException` exactly when some key is null; an empty dictionary is 4 bytes with the incoming state untouched; otherwise the total of the count, two lengths per entry and the encoded keys and non-null values, with one key slot and one value slot (-1 for null) per entry |
| `Hstore.Slots` | src/Npgsql/Internal/Converters/HstoreConverter.cs:41-42 | two size slots per entry |
| `Hstore.WriteSpec` | src/Npgsql/Internal/Converters/HstoreConverter.cs:112-113 | a non-empty dictionary without the hstore write state is an `InvalidCastException` before any byte is written |
| `Hstore.WriteEntry` | src/Npgsql/Internal/Converters/HstoreConverter.cs:127-157 | one entry goes out on the writer as the entry loop's bytes for it, with the same outcome |
| `Hstore.WriteEntries` | src/Npgsql/Internal/Converters/HstoreConverter.cs:125-158 | the writer's output grows by the loop's bytes for all entries, stopping at the first failing one |
| `Hstore.EntriesStopAt` | src/Npgsql/Internal/Converters/HstoreConverter.cs:131-132 | once an entry fails, later entries add no bytes |
| `Hstore.WriteWith` | src/Npgsql/Internal/Converters/HstoreConverter.cs:110-159 | the writer's output grows by the state check, the count and the entries, with the same outcome |
| `Hstore.WriteAsync` | src/Npgsql/Internal/Converters/HstoreConverter.cs:57-58 | the asynchronous write emits each value's bytes |
| `Hstore.WriteSync` | src/Npgsql/Internal/Converters/HstoreConverter.cs:54-55 | the synchronous write as written, which emits each key's bytes in the value's place |
| `Hstore.ReadOnePair` | src/Npgsql/Internal/Converters/HstoreConverter.cs:87-105 | a pair that reads consumes at least its two lengths and stays inside the input |
| `Hstore.Read` | src/Npgsql/Internal/Converters/HstoreConverter.cs:60-81 | a target other than the three dictionary types is `NotSupportedException` once the count is read; a negative count is `ArgumentOutOfRangeException` for `Dictionary` and `IDictionary` (the capacity of line 69) and an empty map after the count for `ImmutableDictionary` |
| `Hstore.ReadPair` | src/Npgsql/Internal/Converters/HstoreConverter.cs:87-105 | on a `ReadBuffer`, one pair is read as the wire function reads it, ending at the same position |
| `Hstore.ReadInto` | src/Npgsql/Internal/Converters/HstoreConverter.cs:83-107 | the `for` loop reads `count` pairs exactly as the wire function does, or fails when it fails |
| `Hstore.ReadFrom` | src/Npgsql/Internal/Converters/HstoreConverter.cs:60-81 | `Read` on a `ReadBuffer` agrees with the wire function, the negative-count refusal included |
| `Hstore.ReadPairsStops` | src/Npgsql/Internal/Converters/HstoreConverter.cs:85-105 | a pair that cannot be read makes the whole read fail |
| `Hstore.SlotsAt` | src/Npgsql/Internal/Converters/HstoreConverter.cs:38-43 | slot `2i` holds entry `i`'s key size and slot `2i+1` its value size |
| `Hstore.EntryBytesMeasured` | src/Npgsql/Internal/Converters/HstoreConverter.cs:130-157 | with its measured slots, the asynchronous loop body emits the entry's wire form |
| `Hstore.EntriesBytesMeasured` | src/Npgsql/Internal/Converters/HstoreConverter.cs:125-158 | with the slots `GetSize` records, the asynchronous loop emits every entry's wire form without failing |
| `Hstore.PairsWireLength` | src/Npgsql/Internal/Converters/HstoreConverter.cs:25-40 | the entries' wire form is 8 bytes per entry plus the payload `GetSize` counts |
| `Hstore.PairsReadBack` | src/Npgsql/Internal/Converters/HstoreConverter.cs:83-107 | the entries' wire form reads back as their dictionary, a later duplicate key overwriting an earlier one |
| `Hstore.WireReadsBack` | src/Npgsql/Internal/Converters/HstoreConverter.cs:60-72 | the count followed by the entries reads back as their dictionary |
| `Hstore.HstoreRoundTrip` | src/Npgsql/Internal/Converters/HstoreConverter.cs:22-158 | measure, asynchronous write and read of a dictionary with no null key gives the dictionary back, in exactly the announced size |
| `Hstore.SyncEmits` | src/Npgsql/Internal/Converters/HstoreConverter.cs:149-155 | the synchronous write of one entry emits the key's bytes after the value's length |
| `Hstore.SingleTotalSize` | src/Npgsql/Internal/Converters/HstoreConverter.cs:25-40 | one entry is announced as 12 bytes plus its key and value |
| `Hstore.SyncSizeMismatch` | src/Npgsql/Internal/Converters/HstoreConverter.cs:22-55 | the synchronous write is longer or shorter than announced by the difference between the key's and the value's encodings |
| `Hstore.SyncReadsKeyAsValue` | src/Npgsql/Internal/Converters/HstoreConverter.cs:54-107 | when key and value encode to equal lengths, the synchronous write reads back mapping the key to itself |
| `Hstore.SyncWritesMirror` | src/Npgsql/Internal/Converters/HstoreConverter.cs:149-155 | under that condition the synchronous write is the wire form of the key mapped to itself |
| `TimestampHandlers.Create` | src/Npgsql/Internal/TypeHandlers/DateTimeHandlers/TimestampHandler.cs:24-27 | `NotSupportedException` exactly when the server lacks integer date/times; otherwise a handler keeping the connection's infinity setting |
| `TimestampHandlers.ValidateAndGetLength` | src/Npgsql/Internal/TypeHandlers/DateTimeHandlers/TimestampHandler.cs:72-82 | `InvalidCastException` exactly for a UTC `DateTime` without legacy behaviour; otherwise 8 bytes |
| `TimestampHandlers.ValidateAndGetLengthPsv` | src/Npgsql/Internal/TypeHandlers/DateTimeHandlers/TimestampHandler.cs:85-95 | the same rule for an `NpgsqlDateTime` |
| `TimestampHandlers.Read` | src/Npgsql/Internal/TypeHandlers/DateTimeHandlers/TimestampHandler.cs:60-61 | a read value carries the decoded ticks and unspecified kind |
| `TimestampHandlers.OverloadsAgree` | src/Npgsql/Internal/TypeHandlers/DateTimeHandlers/TimestampHandler.cs:72-95 | both overloads accept and refuse the same kinds |
| `TimestampHandlers.ReadValueWritable` | src/Npgsql/Internal/TypeHandlers/DateTimeHandlers/TimestampHandler.cs:60-82 | a value read from the column can always be written back, whatever the legacy switch |
| `BuiltInResolvers.OidAgreesWithName` | src/Npgsql/TypeMapping/BuiltInTypeHandlerResolver.cs:148-230 | every well-known OID except the time types and the two pseudo-types maps to the kind its handler's creation name maps to by name |
| `BuiltInResolvers.TimeCreationNamesUnresolved` | src/Npgsql/TypeMapping/BuiltInTypeHandlerResolver.cs:346-347 | as written, the names `Time()` and `TimeTz()` create their handlers under are not in the name table, though their OIDs are known |
| `BuiltInResolvers.OidAgreesWithCorrectedName` | src/Npgsql/TypeMapping/BuiltInTypeHandlerResolver.cs:148-230 | once the long time names are in the table, every well-known OID but the pseudo-types resolves by its creation name as well |
| `BuiltInResolvers.CorrectedNamesExtend` | src/Npgsql/TypeMapping/BuiltInTypeHandlerResolver.cs:318-398 | the corrected table only adds names, and every name the table knew keeps its kind |
| `BuiltInResolvers.NumericAndTextAliases` | src/Npgsql/TypeMapping/BuiltInTypeHandlerResolver.cs:318-398 | "integer" and "int", "numeric" and "decimal", "varchar" and "character varying" are aliases |
| `BuiltInResolvers.TimestampAliases` | src/Npgsql/TypeMapping/BuiltInTypeHandlerResolver.cs:343-344 | both spellings of timestamp and timestamptz map to the same kind |
| `BuiltInResolvers.MiscAliases` | src/Npgsql/TypeMapping/BuiltInTypeHandlerResolver.cs:318-398 | "bool"/"boolean" and "bit varying"/"varbit" are aliases |
| `BuiltInResolvers.CharNames` | src/Npgsql/TypeMapping/BuiltInTypeHandlerResolver.cs:334-395 | "char" is the internal one-byte type, while "character" is the text type bpchar |
| `BuiltInResolvers.DbTypeCoverage` | src/Npgsql/TypeMapping/BuiltInTypeHandlerResolver.cs:232-316 | an `NpgsqlDbType` has no built-in handler exactly when it carries a flag or is spatial, and `Unknown` has one |
| `BuiltInResolvers.ClrNumericKinds` | src/Npgsql/TypeMapping/BuiltInTypeHandlerResolver.cs:408-418 | `byte` and `short` share the Int16 handler, and an enum type gets no integer handler |
| `BuiltInResolvers.CacheKeyAgrees` | src/Npgsql/TypeMapping/BuiltInTypeHandlerResolver.cs:402-534 | the key an answer is cached under is the type itself, except that `ArraySegment<char>` goes under `char`, and both map to the same kind, so a later cache hit agrees with the table |
| `BuiltInResolvers.BuiltInTypeHandlerResolver.constructor` | src/Npgsql/TypeMapping/BuiltInTypeHandlerResolver.cs:128-146 | the eager handlers exist from the start, each created by its accessor, with both caches empty |
| `BuiltInResolvers.BuiltInTypeHandlerResolver.CreateAll` | src/Npgsql/TypeMapping/BuiltInTypeHandlerResolver.cs:133-145 | creates exactly one handler per requested kind, each by that kind's accessor |
| `BuiltInResolvers.BuiltInTypeHandlerResolver.Handler` | src/Npgsql/TypeMapping/BuiltInTypeHandlerResolver.cs:536-617 | an accessor creates its handler on first use and returns that same instance afterwards |
| `BuiltInResolvers.BuiltInTypeHandlerResolver.Create` | src/Npgsql/TypeMapping/BuiltInTypeHandlerResolver.cs:542-615 | a fresh handler of the accessor's class, for the PostgreSQL type its creation name finds |
| `BuiltInResolvers.BuiltInTypeHandlerResolver.HandlerFor` | src/Npgsql/TypeMapping/BuiltInTypeHandlerResolver.cs:148-398 | a table answer goes through its accessor; no answer is null and creates nothing |
| `BuiltInResolvers.BuiltInTypeHandlerResolver.ResolveOID` | src/Npgsql/TypeMapping/BuiltInTypeHandlerResolver.cs:148-230 | a handler exactly when the OID is well known, or its catalogue entry (not "pg_catalog") has a known name; an extension hit is returned from the cache, and a fresh find is cached under the OID |
| `BuiltInResolvers.BuiltInTypeHandlerResolver.ResolveNpgsqlDbType` | src/Npgsql/TypeMapping/BuiltInTypeHandlerResolver.cs:232-316 | a handler exactly when the `NpgsqlDbType` table has the value, namely that kind's |
| `BuiltInResolvers.BuiltInTypeHandlerResolver.ResolveDataTypeName` | src/Npgsql/TypeMapping/BuiltInTypeHandlerResolver.cs:318-398 | a handler exactly when the name table has the name, namely that kind's |
| `BuiltInResolvers.BuiltInTypeHandlerResolver.ResolveClrType` | src/Npgsql/TypeMapping/BuiltInTypeHandlerResolver.cs:402-534 | a cached answer is returned as is; otherwise a handler exactly when the type tests find a kind, cached under the type's cache key |
| `NodaTimeResolvers.LookupsReachEachKind` | src/Npgsql.NodaTime/Internal/NodaTimeTypeHandlerResolver.cs:34-71 | each of the six kinds is found by its OID, by its unflagged `NpgsqlDbType` and by its short name |
| `NodaTimeResolvers.LookupsOnlyReachTheirKind` | src/Npgsql.NodaTime/Internal/NodaTimeTypeHandlerResolver.cs:34-58 | a hit by OID or by `NpgsqlDbType` is exactly that kind's OID or its unflagged base value, so an array or range combination gets null |
| `NodaTimeResolvers.TimestampAliases` | src/Npgsql.NodaTime/Internal/NodaTimeTypeHandlerResolver.cs:63-64 | both spellings of timestamp and timestamptz find the same handler |
| `NodaTimeResolvers.TimeCreationNamesUnresolved` | src/Npgsql.NodaTime/Internal/NodaTimeTypeHandlerResolver.cs:29-30 | as written, the names the time handlers are created with are not among the names looked up |
| `NodaTimeResolvers.CreationNamesResolve` | src/Npgsql.NodaTime/Internal/NodaTimeTypeHandlerResolver.cs:26-31 | every other kind is found under the name its handler is created with |
| `NodaTimeResolvers.InstantSentAsTimestamp` | src/Npgsql.NodaTime/Internal/NodaTimeTypeHandlerResolver.cs:75-76 | as written, an `Instant` parameter goes to the "timestamp without time zone" handler |
| `NodaTimeResolvers.InstantSentAsTimestampTz` | src/Npgsql.NodaTime/Internal/NodaTimeTypeHandlerResolver.cs:73-89 | corrected, `Instant`, `ZonedDateTime` and `OffsetDateTime` all go to "timestamp with time zone", and no other type changes handler |
| `NodaTimeResolvers.NodaTimeTypeHandlerResolver.constructor` | src/Npgsql.NodaTime/Internal/NodaTimeTypeHandlerResolver.cs:22-32 | one handler per kind, each for the PostgreSQL type of its creation name |
| `NodaTimeResolvers.NodaTimeTypeHandlerResolver.LookupsShareHandler` | src/Npgsql.NodaTime/Internal/NodaTimeTypeHandlerResolver.cs:34-71 | a kind's OID, its `NpgsqlDbType` and its short name all return the same handler instance |
| `NtsResolvers.OidLookup` | src/Npgsql.NetTopologySuite/Internal/NetTopologySuiteTypeHandlerResolver.cs:49-54 | with distinct OIDs, each finds its own handler and every other OID finds null |
| `NtsResolvers.DbTypeAndNameLookup` | src/Npgsql.NetTopologySuite/Internal/NetTopologySuiteTypeHandlerResolver.cs:56-70 | the `NpgsqlDbType` and the name of each spatial type find it, and nothing else does |
| `NtsResolvers.ClrLookup` | src/Npgsql.NetTopologySuite/Internal/NetTopologySuiteTypeHandlerResolver.cs:72-77 | the matched types are `Geometry`, `GeometryCollection` (itself derived from `Geometry`) and every class derived directly from either, and no other type (`Object` included); the handler is geography exactly when that is the default |
| `NtsResolvers.IndirectSubclassUnmatched` | src/Npgsql.NetTopologySuite/Internal/NetTopologySuiteTypeHandlerResolver.cs:73 | only the direct base type is inspected, so a class two levels below `Geometry` is not matched |
| `NtsResolvers.NetTopologySuiteTypeHandlerResolver.constructor` | src/Npgsql.NetTopologySuite/Internal/NetTopologySuiteTypeHandlerResolver.cs:21-47 | the OIDs and the two distinct handlers come from the catalogue's geometry and geography entries, which must exist |
| `ConnectorTypeMappers.FirstHitIsFirst` | src/Npgsql/TypeMapping/ConnectorTypeMapper.cs:79-81 | the resolver chain answers exactly when some resolver does, and then with the earliest one's answer |
| `ConnectorTypeMappers.IndexedFindsMapping` | src/Npgsql/TypeMapping/ConnectorTypeMapper.cs:565-569 | after indexing, the mapping is found by its name, its `NpgsqlDbType` and each CLR type, and every other key is untouched |
| `ConnectorTypeMappers.RemoveUndoesAdd` | src/Npgsql/TypeMapping/ConnectorTypeMapper.cs:558-590 | removing a mapping that was added under fresh keys gives back the indexes as they were |
| `ConnectorTypeMappers.RemoveDropsSharedClrType` | src/Npgsql/TypeMapping/ConnectorTypeMapper.cs:585-588 | removal drops each of the mapping's CLR types from the index, even one a later mapping has since taken over |
| `ConnectorTypeMappers.FirstClash` | src/Npgsql/TypeMapping/ConnectorTypeMapper.cs:725-734 | the number of CLR types bound before the first one already bound, either beforehand or earlier in the same list |
| `ConnectorTypeMappers.Bind` | src/Npgsql/TypeMapping/ConnectorTypeMapper.cs:692-738 | every failure of a bind is an `InvalidOperationException` |
| `ConnectorTypeMappers.BindSucceeds` | src/Npgsql/TypeMapping/ConnectorTypeMapper.cs:692-738 | a successful bind returns a handler of the requested class, bound under the OID; on a new OID that handler is the given one, bound under both names, the `NpgsqlDbType` and every CLR type, with earlier CLR bindings kept |
| `ConnectorTypeMappers.BindFails` | src/Npgsql/TypeMapping/ConnectorTypeMapper.cs:692-738 | a bind throws exactly on a class conflict at the OID, an already bound `NpgsqlDbType`, or a CLR type already bound or listed twice; only the OID conflict leaves the bindings as they were |
| `ConnectorTypeMappers.BindEach` | src/Npgsql/TypeMapping/ConnectorTypeMapper.cs:725-734 | the CLR-type loop binds the types up to the first clash and reports where it stopped |
| `ConnectorTypeMappers.IndexEach` | src/Npgsql/TypeMapping/ConnectorTypeMapper.cs:568-569 | the CLR-type loop of `AddMapping` indexes the mapping under each of its CLR types |
| `ConnectorTypeMappers.UnindexEach` | src/Npgsql/TypeMapping/ConnectorTypeMapper.cs:587-588 | the CLR-type loop of `RemoveMapping` removes each of the mapping's CLR types |
| `TypeHandlers.DatabaseInfo.PostgresTypeByName` | src/Npgsql/TypeMapping/ConnectorTypeMapper.cs:296-297 | the catalogue entry of a known name, the same one `TypeByName` finds, and `ArgumentException` for an unknown name |
| `TypeHandlers.XidCatalogueAcyclic` | src/Npgsql/TypeMapping/ConnectorTypeMapper.cs:89-128 | a catalogue numbered as PostgreSQL numbers it, with `_xid8` (271) before `xid8` (5069) and a user enum's array before the enum, is acyclic, so the mapper accepts it |
| `ConnectorTypeMappers.ConnectorTypeMapper.constructor` | src/Npgsql/TypeMapping/ConnectorTypeMapper.cs:53-58 | over any acyclic catalogue, after `Reset`: empty extra-handler caches, bindings cleared to the unrecognized handler, and the global mappings and change counter copied |
| `ConnectorTypeMappers.ConnectorTypeMapper.Lookup` | src/Npgsql/TypeMapping/ConnectorTypeMapper.cs:79-81 | the `foreach` over the resolvers returns the first hit of the chain |
| `ConnectorTypeMappers.ConnectorTypeMapper.ResolveOID` | src/Npgsql/TypeMapping/ConnectorTypeMapper.cs:74-75 | what `TryResolveOID` finds, else the unrecognized handler, with the class the catalogue dictates |
| `ConnectorTypeMappers.ConnectorTypeMapper.TryResolveOID` | src/Npgsql/TypeMapping/ConnectorTypeMapper.cs:77-137 | the first resolver's answer, else the cached one unchanged, else a fresh handler for the catalogue entry (a domain reuses its base type's handler) cached under the OID; its class is the one the catalogue dictates, and an OID not in the catalogue is not found |
| `ConnectorTypeMappers.ConnectorTypeMapper.CreateForEntry` | src/Npgsql/TypeMapping/ConnectorTypeMapper.cs:89-136 | an array, range or multirange entry gets a fresh handler built over the handler of the type it refers to, an enum an unmapped-enum handler, a domain its base type's handler, any other kind none |
| `ConnectorTypeMappers.ConnectorTypeMapper.ResolveNpgsqlDbType` | src/Npgsql/TypeMapping/ConnectorTypeMapper.cs:193-243 | the first resolver's answer, else the cached handler; otherwise a flagged value gets a fresh handler over the container of the resolver's answer for the value with the flag stripped, cached under the flagged value, and every other case throws as the source does |
| `ConnectorTypeMappers.ConnectorTypeMapper.ResolveDataTypeName` | src/Npgsql/TypeMapping/ConnectorTypeMapper.cs:285-332 | the first resolver's answer, else the cached handler, else one built for the catalogue entry of that name and cached under the name; an unknown name is the `ArgumentException` of `GetPostgresTypeByName`, a plain base type `NotSupportedException`, any other kind without a handler `ArgumentOutOfRangeException` |
| `ConnectorTypeMappers.ConnectorTypeMapper.ClearBindings` | src/Npgsql/TypeMapping/ConnectorTypeMapper.cs:623-636 | every binding map is emptied except the type-name map, and Unknown and `DBNull` are bound to the unrecognized handler |
| `ConnectorTypeMappers.ConnectorTypeMapper.GetOrBindHandler` | src/Npgsql/TypeMapping/ConnectorTypeMapper.cs:692-738 | the bindings and the result are exactly those of the bind specification |
| `ConnectorTypeMappers.ConnectorTypeMapper.GetPostgresType` | src/Npgsql/TypeMapping/ConnectorTypeMapper.cs:854-862 | the catalogue entry of the mapping's name unless it is missing (`ArgumentException`) or a domain (`NotSupportedException`) |
| `ConnectorTypeMappers.ConnectorTypeMapper.GetOrBindBaseHandler` | src/Npgsql/TypeMapping/ConnectorTypeMapper.cs:682-690 | a fresh handler of the mapping's class for its PostgreSQL type, bound under the mapping's keys; no entry means nothing is bound |
| `ConnectorTypeMappers.ConnectorTypeMapper.IndexMapping` | src/Npgsql/TypeMapping/ConnectorTypeMapper.cs:565-569 | the indexes afterwards are the old ones with the mapping added |
| `ConnectorTypeMappers.ConnectorTypeMapper.RemoveMapping` | src/Npgsql/TypeMapping/ConnectorTypeMapper.cs:577-595 | refused unless the connector is ready; false with nothing changed when no mapping has the name; otherwise true, the mapping's keys unindexed, the bindings cleared and the change counter -1 |
| `ConnectorTypeMappers.ConnectorTypeMapper.AddMapping` | src/Npgsql/TypeMapping/ConnectorTypeMapper.cs:558-575 | refused unless the connector is ready; a mapping of the same name is removed first, the new one indexed, its base handler bound, and the change counter set to -1 once the bind succeeds |
| `PreparedStatements.CachedSqlEntry.CreateExplicit` | src/Npgsql/PreparedStatementManager.cs:90 | an explicit entry for the SQL under the given name, not yet prepared and unused, recording the statement it replaces and its parameter types |
| `PreparedStatements.CachedSqlEntry.CreateAutoPrepareCandidate` | src/Npgsql/PreparedStatementManager.cs:127 | an automatic candidate for the SQL: nameless, not yet prepared, unused |
| `PreparedStatements.CachedSqlEntry.DoParametersMatch` | src/Npgsql/PreparedStatementManager.cs:143 | true exactly when the given parameter type OIDs are the entry's, same length and same order |
| `PreparedStatements.CachedSqlEntry.IsPrepared` | src/Npgsql/NpgsqlStatement.cs:114 | an entry counts as prepared exactly in the Prepared state, not while being prepared or replaced |
| `PreparedStatements.FirstEmpty` | src/Npgsql/PreparedStatementManager.cs:98-107 | the first empty candidate slot, with every earlier slot filled, or the number of slots when none is empty |
| `PreparedStatements.LeastUsedSlot` | src/Npgsql/PreparedStatementManager.cs:96-120 | the first empty slot if there is one; otherwise the slot with the least (usages, last use), the earliest on a tie; -1 when no slot's key is below the starting sentinel |
| `PreparedStatements.FirstStop` | src/Npgsql/PreparedStatementManager.cs:183-216 | the first auto-prepared slot that is not Prepared or BeingPrepared, every earlier one being one of those two |
| `PreparedStatements.ScanSlots` | src/Npgsql/PreparedStatementManager.cs:177-233 | corrected loop (as written: `ScanSlotsAsWritten`): the `for` loop computes `SlotScan`, keeping the oldest Prepared slot seen so far as `Oldest` of the prefix scanned |
| `PreparedStatements.Oldest` | src/Npgsql/PreparedStatementManager.cs:181-225 | a slot it picks is the least recently used Prepared slot, the earliest on a tie; none exactly when every Prepared slot was last used at `DateTime.MaxValue` |
| `PreparedStatements.SlotScan` | src/Npgsql/PreparedStatementManager.cs:177-233 | corrected scan: an exception exactly when the first stopping slot is NotPrepared or BeingUnprepared; reuse exactly when it is Unprepared, at that index; otherwise the least recently used Prepared slot, and no slot exactly when none was used before `DateTime.MaxValue` |
| `PreparedStatements.FirstInvalid` | src/Npgsql/PreparedStatementManager.cs:209-212 | the first NotPrepared or BeingUnprepared slot, where the scan as written throws |
| `PreparedStatements.UnpreparedIndices` | src/Npgsql/PreparedStatementManager.cs:201-207 | the Unprepared slots among the first `n`, in order |
| `PreparedStatements.ScanSlotsAsWritten` | src/Npgsql/PreparedStatementManager.cs:183-217 | as written: the scan fails exactly at an invalid slot, and every Unprepared slot before it receives the entry, because the `break` leaves only the `switch` |
| `PreparedStatements.BothUnpreparedSlotsOverwritten` | src/Npgsql/PreparedStatementManager.cs:201-207 | with two Unprepared slots, the scan as written gives the entry both, where the corrected scan stops at slot 0 |
| `PreparedStatements.FirstIndex` | src/Npgsql/PreparedStatementManager.cs:253-259 | the first slot holding the entry |
| `PreparedStatements.WithoutFirstCounts` | src/Npgsql/PreparedStatementManager.cs:250-262 | removing a candidate keeps the array's length, takes out exactly one occurrence of that entry and leaves every other entry's count alone |
| `PreparedStatements.PreparedStatementManager.constructor` | src/Npgsql/PreparedStatementManager.cs:34-51 | the settings are copied; both arrays are fresh and sized by them; the cache, the counters and the candidate slots are empty |
| `PreparedStatements.PreparedStatementManager.CandidateKeys` | src/Npgsql/PreparedStatementManager.cs:109-118 | what the eviction scan compares for each candidate slot: none for an empty slot, else its usages and last use |
| `PreparedStatements.PreparedStatementManager.SlotViews` | src/Npgsql/PreparedStatementManager.cs:185-190 | what the replacement scan reads of each auto-prepared slot: its state and last use |
| `PreparedStatements.PreparedStatementManager.NextPreparedStatementName` | src/Npgsql/PreparedStatementManager.cs:27 | the counter goes up by one and the name is "_p" followed by its new value |
| `PreparedStatements.PreparedStatementManager.RemoveCandidate` | src/Npgsql/PreparedStatementManager.cs:250-262 | the candidate array afterwards is the old one with the first slot holding the entry emptied |
| `PreparedStatements.PreparedStatementManager.GetOrAddExplicit` | src/Npgsql/PreparedStatementManager.cs:53-91 | an explicit entry is returned when its parameter types match, null otherwise, with nothing changed; an automatic entry in the Unprepared state is an `InvalidOperationException` and any state other than NotPrepared or Prepared an `ArgumentOutOfRangeException`; otherwise a fresh explicit entry named "_p" and the next counter value is cached for the SQL, replacing a Prepared entry or dropping a NotPrepared candidate |
| `PreparedStatements.PreparedStatementManager.CreateAutoPrepareCandidate` | src/Npgsql/PreparedStatementManager.cs:93-128 | a fresh candidate takes the slot `LeastUsedSlot` picks, and an evicted candidate's SQL leaves the cache; when no slot is picked, the index -1 is an `IndexOutOfRangeException` |
| `PreparedStatements.PreparedStatementManager.TryAutoPrepare` | src/Npgsql/PreparedStatementManager.cs:130-248 | a Prepared or BeingPrepared entry answers whether the parameter types match and is pinned when they do; BeingUnprepared answers false; otherwise the use is counted and, past the threshold, the entry takes the next free slot (named "_auto" and the new count) or, on a full table, the slot the corrected `SlotScan` picks: a reused Unprepared slot, or the least recently used Prepared slot whose entry becomes BeingUnprepared and is recorded as replaced, the name passing to the new entry; on success it leaves the candidates, pinned and with its parameter types set; no other entry changes state; the entry's own state is kept, and on the Prepared, BeingPrepared and BeingUnprepared paths its usages, name, parameter types and replaced statement are unchanged |
| `PreparedStatements.PreparedStatementManager.CountUse` | src/Npgsql/PreparedStatementManager.cs:159-247 | the counting part of `TryAutoPrepare`: below the threshold the last use is recorded and the answer is false; past it the slot is taken as `AssignSlot` says, through the corrected scan on a full table, and no entry other than an evicted one changes state; the entry keeps its state, and below the threshold its name, parameter types and replaced statement are unchanged |
| `PreparedStatements.PreparedStatementManager.Promote` | src/Npgsql/PreparedStatementManager.cs:168-247 | past the threshold, the slot is assigned as `AssignSlot` says, replacing the least recently used Prepared slot on a full table through the corrected scan; on success the entry leaves the candidates, and otherwise the candidates are unchanged |
| `PreparedStatements.PreparedStatementManager.AssignSlot` | src/Npgsql/PreparedStatementManager.cs:170-234 | a free slot below capacity, named "_auto" and the new count; on a full table the slot the corrected `SlotScan` picks, with the same table replacement, eviction and frame as `TakeSlot` |
| `PreparedStatements.PreparedStatementManager.TakeFreeSlot` | src/Npgsql/PreparedStatementManager.cs:170-175 | below capacity, the entry fills the next slot and is named "_auto" and the new count |
| `PreparedStatements.PreparedStatementManager.TakeSlot` | src/Npgsql/PreparedStatementManager.cs:177-234 | on a full table, per the corrected `SlotScan` of the slots: an invalid slot throws and a table without an older Prepared slot gives false, both with the table unchanged; a reused Unprepared slot or the least recently used Prepared slot gets the entry and gives it that slot's name, and a replaced Prepared entry becomes BeingUnprepared and is recorded as the statement being replaced; every other entry's state is unchanged |
| `PreparedStatements.PreparedStatementManager.Admit` | src/Npgsql/PreparedStatementManager.cs:236-245 | the entry leaves the candidates, is pinned, and gets its parameter types |
| `PreparedStatements.PreparedStatementManager.ClearAll` | src/Npgsql/PreparedStatementManager.cs:264-273 | the cache, the counters and every candidate slot are emptied |
| `PreparedStatements.ExplicitNamesDistinct` | src/Npgsql/PreparedStatementManager.cs:27 | distinct counter values give distinct "_p" names |
| `Statements.Truncate32` | src/Npgsql/NpgsqlStatement.cs:38 | the cast to `uint` keeps the count modulo 2^32: below 2^32, and equal to the count when it fits |
| `Statements.Statement.constructor` | src/Npgsql/NpgsqlStatement.cs:24-102 | empty SQL, no rows, a fresh empty parameter list the statement owns, no description and no prepared entry |
| `Statements.Statement.Rows` | src/Npgsql/NpgsqlStatement.cs:38 | `Rows` is below 2^32 and equals `LongRows` whenever that fits |
| `Statements.Statement.GetPreparedStatement` | src/Npgsql/NpgsqlStatement.cs:94-98 | an entry the cache has since unprepared reads as null and is dropped for good; otherwise the entry as stored |
| `Statements.Statement.SetPreparedStatement` | src/Npgsql/NpgsqlStatement.cs:99 | stores the entry |
| `Statements.Statement.GetDescription` | src/Npgsql/NpgsqlStatement.cs:78 | the live entry's description, else the statement's own |
| `Statements.Statement.SetDescription` | src/Npgsql/NpgsqlStatement.cs:79-85 | writes to the live entry when there is one, else to the statement's own field |
| `Statements.Statement.StatementName` | src/Npgsql/NpgsqlStatement.cs:109 | the live entry's name, or "" when there is no live entry or it has no name |
| `Statements.Statement.IsPrepared` | src/Npgsql/NpgsqlStatement.cs:114 | true exactly when there is an entry and it is Prepared |
| `Statements.Statement.SetInputParameters` | src/Npgsql/NpgsqlStatement.cs:62-66 | a list given from outside is never owned |
| `Statements.Statement.Reset` | src/Npgsql/NpgsqlStatement.cs:116-131 | clears the SQL, results, description and entry; an owned list is emptied in place, otherwise the statement gets a fresh unowned list, or null when no owned list is required |
| `Statements.Statement.ApplyCommandComplete` | src/Npgsql/NpgsqlStatement.cs:133-138 | the message's type, count and OID replace the statement's, and `Rows` becomes the count truncated to 32 bits |
| `Statements.RowsWrapAround` | src/Npgsql/NpgsqlStatement.cs:38 | counts that differ by a multiple of 2^32 report the same `Rows` |
| `PreparedStatementHandles.PreparedStatementHandle.constructor` | src/Npgsql/NpgsqlPreparedStatementHandle.cs:10-16 | a handle keeps its name and SQL and belongs to no data source until one is assigned |
| `PreparedStatementHandles.PreparedStatementHandle.SetDataSource` | src/Npgsql/NpgsqlPreparedStatementHandle.cs:16 | assigns the data source |
| `PreparedStatementHandles.PreparedStatementHandle.Equals` | src/Npgsql/NpgsqlPreparedStatementHandle.cs:21-24 | never equal to null; the reference shortcut agrees with the field comparison, so two handles are equal exactly when they share the data source (by reference) and the name |
| `PreparedStatementHandles.PreparedStatementHandle.EqualsObject` | src/Npgsql/NpgsqlPreparedStatementHandle.cs:26-27 | only a handle can equal a handle, and then exactly as the typed `Equals` says |
| `PreparedStatementHandles.PreparedStatementHandle.ToString` | src/Npgsql/NpgsqlPreparedStatementHandle.cs:32 | the name, " -> ", and a prefix of the SQL that is the whole SQL when shorter than 30 characters and otherwise 30 characters long |
| `PreparedStatementHandles.EqualsReflexive` | src/Npgsql/NpgsqlPreparedStatementHandle.cs:21-24 | every handle equals itself |
| `PreparedStatementHandles.EqualsSymmetric` | src/Npgsql/NpgsqlPreparedStatementHandle.cs:21-24 | equality is symmetric |
| `PreparedStatementHandles.EqualsTransitive` | src/Npgsql/NpgsqlPreparedStatementHandle.cs:21-24 | equality is transitive |
| `PreparedStatementHandles.EqualHandlesHashAlike` | src/Npgsql/NpgsqlPreparedStatementHandle.cs:21-30 | equal handles have equal hash codes, whatever the combining function |
| `PreparedStatementHandles.SqlIgnored` | src/Npgsql/NpgsqlPreparedStatementHandle.cs:21-24 | handles differing only in their SQL are equal |
| `PreparedStatementHandles.ShortSqlShownWhole` | src/Npgsql/NpgsqlPreparedStatementHandle.cs:32 | SQL shorter than 30 characters is shown whole |
| `StatementNames.DigitChar` | src/Npgsql/PreparedStatementManager.cs:27 | a digit is written as a character from '0' to '9' |
| `StatementNames.Decimal` | src/Npgsql/PreparedStatementManager.cs:27 | a counter is written as at least one decimal digit and nothing else |
| `StatementNames.DigitCharInjective` | src/Npgsql/PreparedStatementManager.cs:27 | distinct digits are written as distinct characters |
| `StatementNames.DecimalLength` | src/Npgsql/PreparedStatementManager.cs:27 | a counter takes one digit exactly when it is below ten |
| `StatementNames.DecimalInjective` | src/Npgsql/PreparedStatementManager.cs:27 | distinct counters are written differently |
| `StatementNames.Numbered` | src/Npgsql/PreparedStatementManager.cs:173-174 | a name is the prefix ("_auto", "_p" or "_ds") followed by at least one character, every one of them a decimal digit |
| `StatementNames.NumberedInjective` | src/Npgsql/NpgsqlDataSourceBuilder.cs:71 | under one prefix, distinct counters give distinct names |
| `TupleData.EncodeColumn` | src/Npgsql/Replication/PgOutput/Messages/InsertMessage.cs:193-215 | a column's encoding starts with its kind byte, and is its header (1 byte, or 5 for text and binary) plus its payload |
| `TupleData.ReadHeader` | src/Npgsql/Replication/PgOutput/Messages/InsertMessage.cs:193-215 | fails exactly at the end of the data; otherwise the kind byte at the position, with a header at most 5 bytes long, and the length -1 for null, -2 for unchanged and the Int32 after the byte for text and binary |
| `TupleData.SkipPayload` | src/Npgsql/Replication/PgOutput/ReplicationDataReader.cs:338-339 | a length of -1 skips nothing; any other skip advances by the length within the data, and a failed skip leaves the position alone |
| `TupleData.ColumnStep` | src/Npgsql/Replication/PgOutput/ReplicationDataReader.cs:334-340 | corrected step: a whole column, kind byte included, where the code as written skips a bare length (`LengthPrefixedStep`); a skip that succeeds always moves forward |
| `TupleData.LengthPrefixedStep` | src/Npgsql/Replication/PgOutput/ReplicationDataReader.cs:336-339 | as written: a skip succeeds exactly when an Int32 length is read and it is -1, or a non-negative length whose payload fits, and then moves at least past the length |
| `TupleData.SkipLengthPrefixed` | src/Npgsql/Replication/PgOutput/ReplicationDataReader.cs:334-340 | as written: skipping `n` columns as length-prefixed values completes all `n` unless a step fails, and never counts more |
| `TupleData.SkipWith` | src/Npgsql/Replication/PgOutput/ReplicationDataReader.cs:334-340 | skipping `n` columns completes all `n` unless a step fails, and never counts more |
| `TupleData.ColumnAt` | src/Npgsql/Replication/PgOutput/Messages/InsertMessage.cs:182-219 | column `k` of a row present at `base` is present at `base` plus its start, and the next column starts right after it |
| `TupleData.RowEnd` | src/Npgsql/Replication/PgOutput/Messages/InsertMessage.cs:188-189 | the end of the last column is the end of the row |
| `TupleData.ReadHeaderEncoded` | src/Npgsql/Replication/PgOutput/Messages/InsertMessage.cs:193-215 | the header of an encoded column reads back as its kind and length, ending where its payload starts |
| `TupleData.ColumnStepEncoded` | src/Npgsql/Replication/PgOutput/ReplicationDataReader.cs:334-340 | skipping an encoded column, kind byte included, lands exactly on the next one |
| `TupleData.SkipColumnsEncoded` | src/Npgsql/Replication/PgOutput/ReplicationDataReader.cs:334-340 | skipping columns `i` to `j - 1` of an encoded row leaves the buffer at the start of column `j` |
| `TupleData.SkipChain` | src/Npgsql/Replication/PgOutput/ReplicationDataReader.cs:334-340 | steps that each end where the next begins make one clean skip from the first start to the last |
| `TupleData.LengthPrefixedSkipMisreadsRow` | src/Npgsql/Replication/PgOutput/ReplicationDataReader.cs:334-340 | as written, the skip reads the kind byte as part of a length: in the row of two null columns, skipping the first runs off the data, while the corrected skip reaches the second column |
| `ReplicationValues.NullAs` | src/Npgsql/Replication/PgOutput/Messages/ReplicationValue.cs:59-68 | a null column reads as `default` exactly for `Nullable<T>`, as `DBNull` exactly for `object`, and fails with `InvalidCastException` exactly for any other type |
| `ReplicationValues.Unread` | src/Npgsql/Replication/PgOutput/Messages/ReplicationValue.cs:166-171 | `Consume` skips something exactly when fewer than `Length` bytes were read, and then exactly the rest of the payload |
| `ReplicationValues.ReplicationValue.constructor` | src/Npgsql/Replication/PgOutput/Messages/ReplicationValue.cs:23-24 | a value on the given buffer, with nothing loaded |
| `ReplicationValues.ReplicationValue.Reset` | src/Npgsql/Replication/PgOutput/Messages/ReplicationValue.cs:26-31 | the new length is loaded and nothing of it counts as read |
| `ReplicationValues.ReplicationValue.IsDBNull` | src/Npgsql/Replication/PgOutput/Messages/ReplicationValue.cs:34-35 | true exactly when the column length is -1; a null value then has nothing left to consume and is not an unchanged TOASTed value |
| `ReplicationValues.ReplicationValue.IsUnchangedToastedValue` | src/Npgsql/Replication/PgOutput/Messages/ReplicationValue.cs:37-38 | true exactly when the column length is -2; an unchanged TOASTed value then has nothing left to consume |
| `ReplicationValues.ReplicationValue.GetAsync` | src/Npgsql/Replication/PgOutput/Messages/ReplicationValue.cs:40-82 | a second read fails with `NotSupportedException` and moves nothing; null reads as `NullAs`; an unchanged TOASTed value fails with `InvalidCastException`; otherwise the handler decodes exactly the `Length` bytes at the read position, which then count as read; a handler failure leaves the buffer after what it consumed and the value unread |
| `ReplicationValues.ReplicationValue.Consume` | src/Npgsql/Replication/PgOutput/Messages/ReplicationValue.cs:164-178 | as written: skips the unread rest of the payload when it is buffered, fails with nothing moved when it is not, and does not record the skip |
| `ReplicationValues.ReplicationValue.ConsumeRest` | src/Npgsql/Replication/PgOutput/Messages/ReplicationValue.cs:164-178 | the same skip, with the payload then counted as read, so nothing is left to skip afterwards |
| `InsertMessages.ReadNext` | src/Npgsql/Replication/PgOutput/Messages/InsertMessage.cs:192-217 | reading the next header keeps the column index; on success the buffer has moved forward within the data and nothing of the new value is read |
| `InsertMessages.MoveNextAsWritten` | src/Npgsql/Replication/PgOutput/Messages/InsertMessage.cs:182-220 | as written: a step that returns `true` moves to the next column with nothing of it read; `false` comes at the last column and leaves its unread rest pending, so the next step skips it again |
| `InsertMessages.MoveNext` | src/Npgsql/Replication/PgOutput/Messages/InsertMessage.cs:182-220 | corrected step, with the skipped rest recorded as read (the code as written is `MoveNextAsWritten`): a step that returns `true` moves to the next column with nothing of it read; `false` comes only at the last column, with nothing of it left pending; a failure leaves the column index alone |
| `InsertMessages.Drain` | src/Npgsql/Replication/PgOutput/Messages/InsertMessage.cs:234 | iterating to the end never stops on `true`, and keeps the index within the row |
| `InsertMessages.MoveNextEncoded` | src/Npgsql/Replication/PgOutput/Messages/InsertMessage.cs:182-220 | on an encoded row, stepping from column `k` reaches column `k + 1` with its length loaded, and after the last column reports `false` at the end of the row |
| `InsertMessages.DrainEncodedRow` | src/Npgsql/Replication/PgOutput/Messages/InsertMessage.cs:231-237 | iterating an encoded row from any column ends with `false` exactly at the end of the row |
| `InsertMessages.MoveNextAfterEndStays` | src/Npgsql/Replication/PgOutput/Messages/InsertMessage.cs:185-189 | once a step has reported the end of the row, another step reports it again and moves nothing |
| `InsertMessages.MoveNextAsWrittenSkipsAgain` | src/Npgsql/Replication/PgOutput/Messages/InsertMessage.cs:185-189 | as written, a step after the end skips the last column's rest a second time: in a row of one three-byte text column, the end is reported at the row's end and again three bytes later |
| `InsertMessages.InsertMessage.constructor` | src/Npgsql/Replication/PgOutput/Messages/InsertMessage.cs:65-66 | a message with no relation, its row unread, and a fresh reader on the connector's buffer |
| `InsertMessages.InsertMessage.Populate` | src/Npgsql/Replication/PgOutput/Messages/InsertMessage.cs:68-78 | the message takes the relation and its row becomes unread |
| `InsertMessages.InsertMessage.GetRelation` | src/Npgsql/Replication/PgOutput/Messages/InsertMessage.cs:33-34 | the relation when one is set, otherwise `InvalidOperationException` |
| `InsertMessages.InsertMessage.GetNewRow` | src/Npgsql/Replication/PgOutput/Messages/InsertMessage.cs:43-47 | with a relation, the shared reader is reset to its row description, in a result, before the first column; without one, `NullReferenceException` and the reader unchanged |
| `InsertMessages.InsertMessage.Consume` | src/Npgsql/Replication/PgOutput/Messages/InsertMessage.cs:80-81 | in a result, the row is consumed as the corrected `ConsumeRow` says and the reader is left consumed on a failure; before or between results, `ArgumentOutOfRangeException` with the reader consumed and nothing moved; a consumed, closed or disposed reader is left as it is |
| `InsertMessages.TupleEnumerator.constructor` | src/Npgsql/Replication/PgOutput/Messages/InsertMessage.cs:159-164 | an enumerator on the message and buffer, with a fresh value and no columns; its position is the -1 that `Reset` sets, where the driver starts `_pos` at 0 and never reads it before `Reset` |
| `InsertMessages.TupleEnumerator.Reset` | src/Npgsql/Replication/PgOutput/Messages/InsertMessage.cs:166-172 | the column count is set and the index stands before the first column |
| `InsertMessages.TupleEnumerator.ReadColumn` | src/Npgsql/Replication/PgOutput/Messages/InsertMessage.cs:192-217 | reads the next header from the buffer into the value, as `ReadNext` |
| `InsertMessages.TupleEnumerator.ConsumeCurrent` | src/Npgsql/Replication/PgOutput/Messages/InsertMessage.cs:185-186 | corrected: skips what is left of the current column and records it as read (`ConsumeRest`, where the code calls the non-recording `Consume`), or fails with `EndOfData` and nothing moved |
| `InsertMessages.TupleEnumerator.MoveNextAsync` | src/Npgsql/Replication/PgOutput/Messages/InsertMessage.cs:174-221 | outside reading, `ObjectDisposedException` and nothing moves; while reading, the step is the corrected `MoveNext` |
| `InsertMessages.TupleEnumerator.Current` | src/Npgsql/Replication/PgOutput/Messages/InsertMessage.cs:223-229 | the current value exactly while the row is being read, otherwise `ObjectDisposedException` |
| `InsertMessages.TupleEnumerator.DrainColumns` | src/Npgsql/Replication/PgOutput/Messages/InsertMessage.cs:234 | the enumerator ends where `Drain` does, with its outcome |
| `InsertMessages.TupleEnumerator.DisposeAsync` | src/Npgsql/Replication/PgOutput/Messages/InsertMessage.cs:231-237 | disposing while reading drains the row, and the row becomes consumed unless draining fails; disposing otherwise marks it consumed at once |
| `InsertMessages.TupleEnumerable.constructor` | src/Npgsql/Replication/PgOutput/Messages/InsertMessage.cs:105-106 | an enumerable on the message with a fresh enumerator on the buffer |
| `InsertMessages.TupleEnumerable.Reset` | src/Npgsql/Replication/PgOutput/Messages/InsertMessage.cs:108-109 | the column count is set |
| `InsertMessages.TupleEnumerable.GetAsyncEnumerator` | src/Npgsql/Replication/PgOutput/Messages/InsertMessage.cs:111-126 | an unread row becomes read and the enumerator is reset to its columns; a row being read or consumed fails with `InvalidOperationException` and nothing changes |
| `InsertMessages.TupleEnumerable.Consume` | src/Npgsql/Replication/PgOutput/Messages/InsertMessage.cs:128-145 | a consumed row is left as it is; otherwise the row is drained from before its first column when unread, or from the enumerator's position when being read |
| `ReplicationDataReaders.SkipRest` | src/Npgsql/Replication/PgOutput/ReplicationDataReader.cs:329-331 | a positive rest is skipped when buffered and fails with nothing moved when not; nothing else moves |
| `ReplicationDataReaders.ReadTarget` | src/Npgsql/Replication/PgOutput/ReplicationDataReader.cs:342-354 | a header read lands on the target column with nothing of it read and one of the four known kinds; a failure keeps the column index |
| `ReplicationDataReaders.SeekToColumnAsWritten` | src/Npgsql/Replication/PgOutput/ReplicationDataReader.cs:305-355 | as written, with intermediate columns skipped by `SkipLengthPrefixed`: the same refusals with nothing moved, no move for the current column, the target column on success, and never a move backwards |
| `ReplicationDataReaders.SeekToColumn` | src/Npgsql/Replication/PgOutput/ReplicationDataReader.cs:305-355 | corrected seek, each intermediate column skipped whole (the code as written is `SeekToColumnAsWritten`): a column out of range fails with `IndexOutOfRangeException`, one behind the current with `InvalidOperationException`, both with nothing moved; the current column stays put; success lands on the target column |
| `ReplicationDataReaders.ConsumeRowAsWritten` | src/Npgsql/Replication/PgOutput/ReplicationDataReader.cs:389-420 | as written: consuming a row reaches its last column, but the rest of the current column stays pending, unrecorded |
| `ReplicationDataReaders.ConsumeRow` | src/Npgsql/Replication/PgOutput/ReplicationDataReader.cs:389-420 | corrected: consuming a row reaches its last column with the current column's rest counted as read and later columns skipped whole (the code as written is `ConsumeRowAsWritten`) |
| `ReplicationDataReaders.ResetCursorAsWritten` | src/Npgsql/Replication/PgOutput/ReplicationDataReader.cs:54-61 | as written: only the column index goes back before the first column, and whatever was pending in the previous row's column stays pending |
| `ReplicationDataReaders.ResetCursor` | src/Npgsql/Replication/PgOutput/ReplicationDataReader.cs:54-61 | corrected: a reset reader stands before the first column, with nothing pending from the previous row and the buffer where it was (the code as written is `ResetCursorAsWritten`) |
| `ReplicationDataReaders.DecodeColumn` | src/Npgsql/Replication/PgOutput/ReplicationDataReader.cs:109-139 | the whole payload counts as read whether the handler succeeds or fails, and the column stays the same |
| `ReplicationDataReaders.RestEndsColumn` | src/Npgsql/Replication/PgOutput/ReplicationDataReader.cs:327-331 | inside column `k - 1` of an encoded row, the rest to skip ends exactly at column `k` |
| `ReplicationDataReaders.SeekEncoded` | src/Npgsql/Replication/PgOutput/ReplicationDataReader.cs:305-355 | on an encoded row, seeking forward to column `j` succeeds and leaves the reader just after column `j`'s header, with its kind and length loaded |
| `ReplicationDataReaders.ReadFieldEncoded` | src/Npgsql/Replication/PgOutput/ReplicationDataReader.cs:85-140 | on an encoded row, reading column `j` gives `NullAs` for a null column, `InvalidCastException` for an unchanged one, and the handler's decoding of exactly the payload for text and binary |
| `ReplicationDataReaders.KindAndLength` | src/Npgsql/Replication/PgOutput/ReplicationDataReader.cs:342-351 | after a seek to an encoded column, the reader holds that column's kind and payload length |
| `ReplicationDataReaders.ConsumeRowEncoded` | src/Npgsql/Replication/PgOutput/ReplicationDataReader.cs:389-420 | consuming an encoded row from any column succeeds and ends exactly at the end of the row at its last column, with nothing pending |
| `ReplicationDataReaders.NextRowAfterConsume` | src/Npgsql/Replication/PgOutput/ReplicationDataReader.cs:54-61 | once a row is consumed, the reset reader stands before the first column of the next row |
| `ReplicationDataReaders.NextColumnSeeksAgree` | src/Npgsql/Replication/PgOutput/ReplicationDataReader.cs:334-340 | with no column between the current one and the target, the seek as written and the corrected seek agree |
| `ReplicationDataReaders.StaleSeekFails` | src/Npgsql/Replication/PgOutput/ReplicationDataReader.cs:327-331 | a stale column length left from the previous row makes the seek skip into the next row's length and fail on the kind byte |
| `ReplicationDataReaders.StaleColumnLength` | src/Npgsql/Replication/PgOutput/ReplicationDataReader.cs:403-410 | as written, a column sought but not read stays pending into the next row: on two rows of one three-byte text column, the seek to the second row's column fails, where the corrected reader finds the text column of length 3 |
| `ReplicationDataReaders.ReplicationDataReader.constructor` | src/Npgsql/Replication/PgOutput/ReplicationDataReader.cs:51-52 | a reader on the buffer, before any result and without a row description |
| `ReplicationDataReaders.ReplicationDataReader.Reset` | src/Npgsql/Replication/PgOutput/ReplicationDataReader.cs:54-61 | takes the row description and its column count, enters the result, and resets the position as the corrected `ResetCursor` does |
| `ReplicationDataReaders.ReplicationDataReader.GetField` | src/Npgsql/Replication/PgOutput/ReplicationDataReader.cs:427-436 | without a row description, `InvalidOperationException`; otherwise the field exactly when the index is in range, else `IndexOutOfRangeException` |
| `ReplicationDataReaders.ReplicationDataReader.CheckRowAndGetField` | src/Npgsql/Replication/PgOutput/ReplicationDataReader.cs:439-457 | the field exactly when the reader is in a result and the index is in range; `ObjectDisposedException` when disposed, `InvalidOperationException` when closed or outside a result, `IndexOutOfRangeException` otherwise |
| `ReplicationDataReaders.ReplicationDataReader.CheckClosedOrDisposed` | src/Npgsql/Replication/PgOutput/ReplicationDataReader.cs:468-477 | passes exactly when the reader is neither closed nor disposed, with the matching exception otherwise |
| `ReplicationDataReaders.ReplicationDataReader.SkipColumn` | src/Npgsql/Replication/PgOutput/ReplicationDataReader.cs:334-340 | the buffer ends where the corrected whole-column skip `ColumnStep` ends, with its outcome |
| `ReplicationDataReaders.ReplicationDataReader.SkipColumnsUntil` | src/Npgsql/Replication/PgOutput/ReplicationDataReader.cs:334-340 | skips columns up to `last` as the corrected `SkipColumns` does, counting each completed one in the column index |
| `ReplicationDataReaders.ReplicationDataReader.ReadTargetHeader` | src/Npgsql/Replication/PgOutput/ReplicationDataReader.cs:342-354 | the reader's position and outcome are those of `ReadTarget` |
| `ReplicationDataReaders.ReplicationDataReader.SkipRestOfColumn` | src/Npgsql/Replication/PgOutput/ReplicationDataReader.cs:329-331 | the buffer moves as `SkipRest` says, with its outcome |
| `ReplicationDataReaders.ReplicationDataReader.SeekToColumnSequential` | src/Npgsql/Replication/PgOutput/ReplicationDataReader.cs:305-355 | the reader's new position and outcome are those of the corrected `SeekToColumn` |
| `ReplicationDataReaders.ReplicationDataReader.SeekInColumnSequential` | src/Npgsql/Replication/PgOutput/ReplicationDataReader.cs:369-384 | a position already passed fails with `InvalidOperationException`; otherwise the position is capped at the column length and the buffer skips forward to it, or fails with nothing moved when those bytes are not buffered |
| `ReplicationDataReaders.ReplicationDataReader.ConsumeRowMethod` | src/Npgsql/Replication/PgOutput/ReplicationDataReader.cs:389-420 | the reader's new position and outcome are those of the corrected `ConsumeRow` |
| `ReplicationDataReaders.ReplicationDataReader.GetFieldValueSequential` | src/Npgsql/Replication/PgOutput/ReplicationDataReader.cs:85-140 | a failed row or column check throws with nothing moved; otherwise the position and result are those of `ReadField` |
| `ReplicationDataReaders.ReplicationDataReader.DecodeCurrent` | src/Npgsql/Replication/PgOutput/ReplicationDataReader.cs:109-139 | the position and result are those of `DecodeColumn` |
| `ReplicationDataReaders.ReplicationDataReader.IsDBNullAsync` | src/Npgsql/Replication/PgOutput/ReplicationDataReader.cs:149-167 | a failed row or column check throws with nothing moved; otherwise the reader seeks to the column and answers whether its kind is null |
| `ReplicationDataReaders.ReplicationDataReader.ReadAsync` | src/Npgsql/Replication/PgOutput/ReplicationDataReader.cs:216-245 | in a result, the row is consumed and `false` returned, and a failure leaves the reader consumed; a consumed, closed or disposed reader returns `false` unchanged; before or between results, `ArgumentOutOfRangeException` and the reader becomes consumed |
| `SlimDataSourceBuilders.TypeInfoResolver.constructor` | src/Npgsql/NpgsqlSlimDataSourceBuilder.cs:27 | a resolver instance carries its runtime type, which is all the chain compares |
| `SlimDataSourceBuilders.RemoveFirst` | src/Npgsql/NpgsqlSlimDataSourceBuilder.cs:297-302 | removing the first resolver of a type drops at most one entry and adds nothing |
| `SlimDataSourceBuilders.RemoveFirstNone` | src/Npgsql/NpgsqlSlimDataSourceBuilder.cs:297-302 | with no resolver of the type in the chain, nothing is removed |
| `SlimDataSourceBuilders.RemoveFirstAt` | src/Npgsql/NpgsqlSlimDataSourceBuilder.cs:297-302 | with the first resolver of the type at index `i`, exactly that entry is removed and the rest keep their order |
| `SlimDataSourceBuilders.FirstOfType` | src/Npgsql/NpgsqlSlimDataSourceBuilder.cs:297-298 | the index the search stops at holds a resolver of the type, and none comes before it |
| `SlimDataSourceBuilders.RemovedKeepsOnePerType` | src/Npgsql/NpgsqlSlimDataSourceBuilder.cs:297-302 | on a chain with at most one resolver per type, removal leaves none of the removed type and keeps at most one of each other |
| `SlimDataSourceBuilders.AddedKeepsOnePerType` | src/Npgsql/NpgsqlSlimDataSourceBuilder.cs:293-305 | adding a resolver keeps at most one resolver per type, the new one in front and no other of its type behind it |
| `SlimDataSourceBuilders.PluginChainReversed` | src/Npgsql/NpgsqlSlimDataSourceBuilder.cs:70-71 | plugins of distinct types added one after another end up in reverse order |
| `SlimDataSourceBuilders.ReversedElements` | src/Npgsql/NpgsqlSlimDataSourceBuilder.cs:70-72 | element `k` of the reversed chain is element `n - 1 - k` of the original |
| `SlimDataSourceBuilders.RangeOptInsLeaveOne` | src/Npgsql/NpgsqlSlimDataSourceBuilder.cs:323-345 | any sequence of `EnableArrays`, `EnableRanges` and `EnableMultiranges` leaves exactly one range resolver, at the front |
| `SlimDataSourceBuilders.ValidateMultiHost` | src/Npgsql/NpgsqlSlimDataSourceBuilder.cs:528-536 | passes exactly without target session attributes, multiplexing or replication; target session attributes fail first with `InvalidOperationException`, the others with `NotSupportedException` |
| `SlimDataSourceBuilders.SelectDataSource` | src/Npgsql/NpgsqlSlimDataSourceBuilder.cs:457-468 | several hosts give a multi-host data source exactly when the multi-host checks pass and fail with their error otherwise; one host gives multiplexing, else pooling, else unpooled, each exactly under its settings |
| `SlimDataSourceBuilders.SlimDataSourceBuilder.constructor` | src/Npgsql/NpgsqlSlimDataSourceBuilder.cs:65-75 | the chain is the plugins added in turn, then the shared unsupported-type resolver, then a new ADO resolver in front, with at most one resolver per type; no logger, encryption, callback, password provider, refresh interval, initializer or user mapping is set |
| `SlimDataSourceBuilders.SlimDataSourceBuilder.FromSettings` | src/Npgsql/NpgsqlSlimDataSourceBuilder.cs:77-81 | the internal constructor keeps the given settings and starts with an empty chain and nothing configured |
| `SlimDataSourceBuilders.SlimDataSourceBuilder.UseLoggerFactory` | src/Npgsql/NpgsqlSlimDataSourceBuilder.cs:88-92 | records whether a logger factory is set and returns the builder |
| `SlimDataSourceBuilders.SlimDataSourceBuilder.EnableParameterLogging` | src/Npgsql/NpgsqlSlimDataSourceBuilder.cs:101-105 | records the parameter-logging flag and returns the builder |
| `SlimDataSourceBuilders.SlimDataSourceBuilder.UseUserCertificateValidationCallback` | src/Npgsql/NpgsqlSlimDataSourceBuilder.cs:124-130 | records whether the callback is set and returns the builder |
| `SlimDataSourceBuilders.SlimDataSourceBuilder.UseClientCertificatesCallback` | src/Npgsql/NpgsqlSlimDataSourceBuilder.cs:171-176 | records whether the callback is set and returns the builder |
| `SlimDataSourceBuilders.SlimDataSourceBuilder.UsePeriodicPasswordProvider` | src/Npgsql/NpgsqlSlimDataSourceBuilder.cs:225-242 | a negative refresh interval fails with `ArgumentException` and changes nothing; otherwise the provider and both intervals are stored |
| `SlimDataSourceBuilders.SlimDataSourceBuilder.MapEnum` | src/Npgsql/NpgsqlSlimDataSourceBuilder.cs:252-257 | the enum mapping for the PostgreSQL name is added to the user mappings, and the builder is returned |
| `SlimDataSourceBuilders.SlimDataSourceBuilder.UnmapEnum` | src/Npgsql/NpgsqlSlimDataSourceBuilder.cs:260-262 | the enum mapping for the name is removed, and the answer is true exactly when there was one |
| `SlimDataSourceBuilders.SlimDataSourceBuilder.MapComposite` | src/Npgsql/NpgsqlSlimDataSourceBuilder.cs:266-270 | the composite mapping for the PostgreSQL name is added to the user mappings, and the builder is returned |
| `SlimDataSourceBuilders.SlimDataSourceBuilder.UnmapComposite` | src/Npgsql/NpgsqlSlimDataSourceBuilder.cs:274-275 | the composite mapping for the name is removed, and the answer is true exactly when there was one |
| `SlimDataSourceBuilders.SlimDataSourceBuilder.AddTypeInfoResolver` | src/Npgsql/NpgsqlSlimDataSourceBuilder.cs:293-305 | the chain becomes `Added`: the earlier resolver of the same type removed, the new one in front |
| `SlimDataSourceBuilders.SlimDataSourceBuilder.ResetTypeMappings` | src/Npgsql/NpgsqlSlimDataSourceBuilder.cs:310-314 | the chain becomes exactly the plugin resolvers |
| `SlimDataSourceBuilders.SlimDataSourceBuilder.EnableArrays` | src/Npgsql/NpgsqlSlimDataSourceBuilder.cs:323-327 | a new range resolver is added in front of the chain |
| `SlimDataSourceBuilders.SlimDataSourceBuilder.EnableRanges` | src/Npgsql/NpgsqlSlimDataSourceBuilder.cs:332-336 | a new range resolver is added in front of the chain |
| `SlimDataSourceBuilders.SlimDataSourceBuilder.EnableMultiranges` | src/Npgsql/NpgsqlSlimDataSourceBuilder.cs:341-345 | a new range resolver is added in front of the chain |
| `SlimDataSourceBuilders.SlimDataSourceBuilder.AddNew` | src/Npgsql/NpgsqlSlimDataSourceBuilder.cs:323-345 | every `Enable…` opt-in: a fresh resolver of the type goes in front of the chain, and the chain becomes `Added` with it |
| `SlimDataSourceBuilders.SlimDataSourceBuilder.EnableFeature` | src/Npgsql/NpgsqlSlimDataSourceBuilder.cs:357-400 | `UseSystemTextJson`, `EnableRecords`, `EnableFullTextSearch`, `EnableLTree` and `EnableExtraConversions` each add a new resolver of their type in front of the chain |
| `SlimDataSourceBuilders.SlimDataSourceBuilder.EnableEncryption` | src/Npgsql/NpgsqlSlimDataSourceBuilder.cs:406-411 | the builder now supports encryption |
| `SlimDataSourceBuilders.SlimDataSourceBuilder.UsePhysicalConnectionInitializer` | src/Npgsql/NpgsqlSlimDataSourceBuilder.cs:436-447 | fails with `ArgumentException` and changes nothing exactly when one initializer is given without the other; otherwise stores both |
| `SlimDataSourceBuilders.SlimDataSourceBuilder.ConfigurationCheck` | src/Npgsql/NpgsqlSlimDataSourceBuilder.cs:487-496 | passes exactly when certificate callbacks come with encryption and a password provider comes without a password or passfile; the callbacks fail first with `InvalidOperationException`, the password clash with `NotSupportedException` |
| `SlimDataSourceBuilders.SlimDataSourceBuilder.Resolvers` | src/Npgsql/NpgsqlSlimDataSourceBuilder.cs:512-525 | the chain in order, then a new user-mapping resolver exactly when an enum or composite is mapped, then the global user mappings when present |
| `SlimDataSourceBuilders.SlimDataSourceBuilder.PrepareConfiguration` | src/Npgsql/NpgsqlSlimDataSourceBuilder.cs:483-526 | fails exactly as `ConfigurationCheck` says; otherwise the resolvers are the chain, then a new user-mapper resolver when there are user mappings, then the global user mappings when present, and nothing else; the configuration carries the encryption, password provider, logging, both refresh intervals and the connection initializers |
| `SlimDataSourceBuilders.SlimDataSourceBuilder.Build` | src/Npgsql/NpgsqlSlimDataSourceBuilder.cs:452-469 | a configuration error comes first; otherwise the data source has the kind `SelectDataSource` chooses, or its error |
| `SlimDataSourceBuilders.SlimDataSourceBuilder.BuildMultiHost` | src/Npgsql/NpgsqlSlimDataSourceBuilder.cs:474-481 | a configuration error comes first; otherwise a multi-host data source exactly when the multi-host checks pass, else their error |
| `DataSourceBuilders.SelectDataSource` | src/Npgsql/NpgsqlDataSourceBuilder.cs:96-109 | several hosts fail with `NotSupportedException` exactly with multiplexing or replication, and otherwise give a multi-host data source; one host gives multiplexing, else pooling, else unpooled, each exactly under its settings |
| `DataSourceBuilders.SameChoiceWithoutTargetSessionAttributes` | src/Npgsql/NpgsqlDataSourceBuilder.cs:96-109 | without target session attributes, this builder and the slim builder choose the same kind |
| `DataSourceBuilders.ChoicesDifferOnTargetSessionAttributes` | src/Npgsql/NpgsqlDataSourceBuilder.cs:96-102 | with several hosts and target session attributes, this builder builds a multi-host data source where the slim builder fails with `InvalidOperationException` |
| `DataSourceBuilders.DataSourceBuilder.constructor` | src/Npgsql/NpgsqlDataSourceBuilder.cs:31-32 | a builder on the settings, with no logger, no parameter logging and no prepared statements |
| `DataSourceBuilders.DataSourceBuilder.UseLoggerFactory` | src/Npgsql/NpgsqlDataSourceBuilder.cs:39-43 | records whether a logger factory is set and returns the builder |
| `DataSourceBuilders.DataSourceBuilder.EnableParameterLogging` | src/Npgsql/NpgsqlDataSourceBuilder.cs:52-56 | records the parameter-logging flag and returns the builder |
| `DataSourceBuilders.DataSourceBuilder.Prepare` | src/Npgsql/NpgsqlDataSourceBuilder.cs:69-74 | a new handle for the SQL, named "_ds" followed by the incremented counter, is appended to the statements; no earlier statement has its name |
| `DataSourceBuilders.DataSourceBuilder.GetDataSource` | src/Npgsql/NpgsqlDataSourceBuilder.cs:86-110 | fails exactly as `SelectDataSource` does; otherwise the data source has the chosen kind, the logging configuration and the registered statements |
| `DataSourceBuilders.PreparedNamesDistinct` | src/Npgsql/NpgsqlDataSourceBuilder.cs:71 | the statements a builder registers all have distinct names |

## Left out

- Integer widths: counters, sizes and positions are unbounded integers. The 32-bit wrap-around is written out only where it is visible: `Rows`, and the Int32 wire lengths. An `int` overflow of `totalSize`, `Usages` or `_preparedStatementIndex` is not modelled.
- Sync and async duplicates, cancellation registrations and `NoSynchronizationContextScope` are not modelled. One sequential path is modelled per operation. The one place where the two paths differ is modelled twice (`Hstore.WriteSync` and `Hstore.WriteAsync`).
- Buffer and transport internals are not modelled: reading more network data, and flushing the write buffer. The read buffer is the bytes of the current message plus a position, and a read past the end is `EndOfData`. A flush moves the buffered bytes to the output.
- Concurrency and locks are not modelled. Every operation runs alone.
- Logging, metrics, TLS, certificate callbacks and the password-provider timer are not modelled. A logger factory, a callback or a provider is reduced to whether it is set. The warning that `PreparedStatementManager` logs when `MaxAutoPrepared` exceeds 256 is not modelled.
- Subtype converters, text encodings, type handlers' decoding and `DateTimeUtils` tick conversions are external. They are parameters of the model.
- `ConnectorTypeMappers.ConnectorTypeMapper.TryResolveOID`: the catalogue is assumed acyclic: some ranking puts every array element, range subtype, multirange subrange and domain base type below the type that refers to it. The OIDs need not follow that order. A cyclic catalogue would overflow the stack in the driver.
- `ConnectorTypeMappers.ConnectorTypeMapper.ResolveDataTypeName`: `GetPostgresTypeByName` is taken to throw `ArgumentException` for an unknown name, as its non-nullable result and the separate `TryGetPostgresTypeByName` indicate; `NpgsqlDatabaseInfo.cs` is not part of this model, so the null test at line 296 never succeeds here, and its `NotSupportedException` is not produced.
- `BuiltInResolvers.BuiltInTypeHandlerResolver.Create`: a handler is built with the catalogue entry `TypeByName` finds, or none; the throw of `GetPostgresTypeByName` for a type the database lacks is not modelled.
- `NodaTimeResolvers.NodaTimeTypeHandlerResolver.constructor`: each handler carries the catalogue entry `TypeByName` finds, or none; the throw of `GetPostgresTypeByName` for a type the database lacks is not modelled.
- `BuiltInResolvers.BuiltInTypeHandlerResolver.ResolveOID`: the resolver interface declares `bool ResolveOID(uint, out handler)`, while the built-in resolver returns a nullable handler. Every `ResolveOID` here returns an `Option`.
- `ConnectorTypeMapper.ResolveClrType` is not modelled, because it inspects generic and array element types by reflection. The same goes for `GetOrBindArrayHandler` and the range and multirange binding behind it.
- `ConnectorTypeMappers.ConnectorTypeMapper.ClearBindings`: the enum mappings that `Reset` re-adds through `MapEnum` are not modelled.
- `TimestampHandler`: the tick conversions behind `Read`, `ReadPsv` and `Write` are not modelled, because they are `DateTimeUtils` arithmetic. The factory guard, the two `ValidateAndGetLength` overloads and the shape of `Read`'s result are modelled.
- `NpgsqlStatement.ToString` is not modelled, because it is a display string.
- `PreparedStatementHandles.PreparedStatementHandle.HashCode`: `HashCode.Combine` is a parameter of the handle. Only "equal handles hash alike" is proved.
- `InsertMessage.GetNewRowBuffered`, `ReplicationDataReader.BufferRow` and `InsertMessage.Clone` are not modelled, because they throw `NotImplementedException`.
- `SeekToColumnNonSequential`, the non-sequential `SeekInColumn` branch and the non-sequential `IsDBNull` path are not modelled. They are reachable only after `BufferRow`, which throws.
- The replication reader's column streams (`_columnStream`) are not modelled, because the reader never creates one: `GetStream` throws `NotImplementedException`.
- `ConnectionStringBuilder.PostProcessAndValidate` is not modelled, and neither is the copy `Build` makes of the connection string. The settings are taken as already validated.
- `SlimDataSourceBuilders.SlimDataSourceBuilder.UseClientCertificatesCallback`: `UseClientCertificate`, `UseClientCertificates`, `UseRootCertificate` and `UseRootCertificateCallback` only set callbacks. Of these, only whether a client-certificate callback is set is modelled.
- `SlimDataSourceBuilders.SlimDataSourceBuilder.MapEnum`: `UserTypeMapper.cs` is not part of this model. Its items are the set of mapped enum and composite PostgreSQL names; a name the caller leaves out is translated outside the model, and the CLR type of a mapping is not kept. The same holds for `UnmapEnum`, `MapComposite` and `UnmapComposite`, each of whose two overloads is one member.
- `ColumnStreams.ColumnStream.Read`: models the corrected count `ReadCount`, so after a seek past the end it reads nothing where the code throws; the code as written is `ColumnStreams.ReadCountAsWritten` (see "## Findings").
- `ColumnStreams.ColumnStream.ReadByte`: goes through the corrected `Read`, so after a seek past the end it returns -1 where the code throws; as written, `ColumnStreams.ReadCountAsWritten`.
- `ColumnStreams.ColumnStream.ReadInto`: goes through the corrected `Read`; as written, `ColumnStreams.ReadCountAsWritten`.
- `TupleData.ColumnStep`: models the corrected whole-column skip, kind byte included; the code as written is `TupleData.LengthPrefixedStep` and `TupleData.SkipLengthPrefixed`.
- `ReplicationDataReaders.ReplicationDataReader.SkipColumn`: skips with the corrected `ColumnStep`; as written, `TupleData.LengthPrefixedStep`.
- `ReplicationDataReaders.ReplicationDataReader.SkipColumnsUntil`: skips with the corrected `SkipColumns`; as written, `TupleData.SkipLengthPrefixed`.
- `ReplicationDataReaders.SeekToColumn`: models the corrected seek with whole-column skips; the code as written is `ReplicationDataReaders.SeekToColumnAsWritten`.
- `ReplicationDataReaders.ReplicationDataReader.SeekToColumnSequential`: runs the corrected `SeekToColumn`; as written, `ReplicationDataReaders.SeekToColumnAsWritten`.
- `ReplicationDataReaders.ReplicationDataReader.GetFieldValueSequential`: seeks through the corrected `SeekToColumnSequential`, so it lands on the requested column where the skip as written misreads the row; as written, `ReplicationDataReaders.SeekToColumnAsWritten`.
- `ReplicationDataReaders.ReplicationDataReader.IsDBNullAsync`: seeks through the corrected `SeekToColumnSequential`; as written, `ReplicationDataReaders.SeekToColumnAsWritten`.
- `PreparedStatements.SlotScan`: the corrected scan of a full table, which reuses only the first Unprepared slot and stops there; the loop as written overwrites every Unprepared slot and still throws at a later NotPrepared or BeingUnprepared slot, which is `PreparedStatements.ScanSlotsAsWritten`.
- `PreparedStatements.ScanSlots`: the corrected loop, proved to compute `SlotScan`; as written, `PreparedStatements.ScanSlotsAsWritten`.
- `PreparedStatements.PreparedStatementManager.TakeSlot`: takes the slot the corrected `SlotScan` picks; as written, `PreparedStatements.ScanSlotsAsWritten`.
- `PreparedStatements.PreparedStatementManager.AssignSlot`: on a full table, goes through the corrected `TakeSlot`; as written, `PreparedStatements.ScanSlotsAsWritten`.
- `PreparedStatements.PreparedStatementManager.Promote`: assigns through the corrected `AssignSlot`; as written, `PreparedStatements.ScanSlotsAsWritten`.
- `PreparedStatements.PreparedStatementManager.CountUse`: past the threshold, assigns through the corrected `Promote`; as written, `PreparedStatements.ScanSlotsAsWritten`.
- `PreparedStatements.PreparedStatementManager.TryAutoPrepare`: a full table goes through the corrected scan by way of `CountUse`; as written, `PreparedStatements.ScanSlotsAsWritten`.
- `ReplicationDataReaders.ConsumeRow`: models the corrected consumption, which records the skipped rest and skips later columns whole; the code as written is `ReplicationDataReaders.ConsumeRowAsWritten`.
- `ReplicationDataReaders.ReplicationDataReader.ConsumeRowMethod`: runs the corrected `ConsumeRow`; as written, `ReplicationDataReaders.ConsumeRowAsWritten`. `ReplicationDataReader.ReadAsync` and `InsertMessages.InsertMessage.Consume` consume through it too.
- `InsertMessages.InsertMessage.Consume`: consumes through the corrected `ConsumeRow`; as written, `ReplicationDataReaders.ConsumeRowAsWritten`.
- `ReplicationDataReaders.ResetCursor`: models the corrected reset, which also clears the column length and position; the code as written is `ReplicationDataReaders.ResetCursorAsWritten`.
- `ReplicationDataReaders.ReplicationDataReader.Reset`: resets as the corrected `ResetCursor`; as written, `ReplicationDataReaders.ResetCursorAsWritten`. `InsertMessages.InsertMessage.GetNewRow` resets the reader through it.
- `InsertMessages.MoveNext`: models the corrected step, which records the skipped rest; the code as written is `InsertMessages.MoveNextAsWritten`, with `ReplicationValues.ReplicationValue.Consume` as the non-recording skip.
- `InsertMessages.TupleEnumerator.ConsumeCurrent`: records the skip through `ConsumeRest`; as written, `ReplicationValues.ReplicationValue.Consume` and `InsertMessages.MoveNextAsWritten`.
- `InsertMessages.TupleEnumerator.MoveNextAsync`: runs the corrected `MoveNext`; as written, `InsertMessages.MoveNextAsWritten`. `DrainColumns`, `DisposeAsync` and `TupleEnumerable.Consume` step through it too.
- `PgWriters.PgWriter.WriteBytes`: `WriteRaw` throws `NotImplementedException`, and its comment asks for a loop that flushes; the member is that loop, which the hstore and range writers use for payloads.
- `NtsResolvers.NetTopologySuiteTypeHandlerResolver.constructor`: requires the catalogue to have both the geometry and the geography entries; the source's lookup throws when one is missing, and that failure is not modelled.
- `TupleData.SkipPayload`: a length below -1 is refused as `ArgumentOutOfRange`; `NpgsqlReadBuffer.Skip` is not part of this model, so which exception it raises for a negative count, and whether it raises one, is not captured.
- `RangeConverters.ReadBound`: a length below -1 is `EndOfData` rather than whatever the subtype reader would fail with.
- `DataSourceBuilders.DataSourceBuilder.GetDataSource`: the data source receives a copy of the registered prepared statements, while the source passes the builder's own list, so a statement registered after the data source is built would reach it there; that aliasing is not modelled.
- `Hstore.GetSize`: the rented array of sizes and write states is a sequence with slot `2i` for the key and `2i + 1` for the value of entry `i`; renting and returning it to the pool are not modelled.
- The code generator and the registration-only resolvers (`FullTextSearchTypeInfoResolver`, `SystemTextJsonTypeInfoResolver`) are not modelled. Each is one runtime type in the resolver chain.

## Findings

| source | as written | input that shows it | evidently intended | confidence | as-written member | corrected member |
|---|---|---|---|---|---|---|
| src/Npgsql/Internal/NpgsqlReadBuffer.Stream.cs:160-165 | `count = Min(span.Length, CurrentLength - _read)` goes negative after a seek past the end, and `span.Slice(0, count)` throws | a 2-byte column, `Seek(1, End)`, then `Read` into a 4-byte span | a read at or past the end returns 0 | medium, not executed | `ColumnStreams.ReadAfterSeekPastEndThrows` | `ColumnStreams.ReadCountAgrees` |
| src/Npgsql/Internal/Converters/RangeConverter.cs:95-102 | a null finite lower bound next to a non-null upper bound keeps the `Unknown` default size, so `Write` does not normalise it, and reading its size fails after the flags byte went out | `[null, 5)` over a subtype that treats null as DB null | the bound is written as null (or infinite), and the range round-trips | high, not executed | `RangeConverters.NullLowerWriteFails` | `RangeConverters.RoundTripCorrected` |
| src/Npgsql/Internal/Converters/RangeConverter.cs:105-117 | a null finite bound is measured with its 4-byte length prefix, although `Write` normalises it away | `[5, null)` | the measured size equals the bytes written | high, not executed | `RangeConverters.NullUpperMeasuredTooLarge` | `RangeConverters.RoundTripCorrected` |
| src/Npgsql/Internal/Converters/HstoreConverter.cs:155 | the synchronous write emits the key's characters in the value's slot, under the value's length | `{"k": "v"}` written synchronously reads back as `{"k": "k"}` | the value is written, as in the async branch at line 153 | high, not executed | `Hstore.SyncReadsKeyAsValue` | `Hstore.HstoreRoundTrip` |
| src/Npgsql/PreparedStatementManager.cs:201-207 | the `break` leaves only the `switch`, so the scan goes on and every Unprepared slot is overwritten with the same entry | a full table whose slots 0 and 1 are both Unprepared | only the first Unprepared slot is reused | high, not executed | `PreparedStatements.BothUnpreparedSlotsOverwritten` | `PreparedStatements.SlotScan` |
| src/Npgsql/Replication/PgOutput/ReplicationDataReader.cs:334-340 | intermediate columns are skipped as a bare Int32 length and payload, although each column starts with a kind byte (as lines 342-351 read it) | the row of two null columns: skipping the first runs off the data | each skipped column is read as a kind byte, then a length and payload for text and binary | high, not executed | `TupleData.LengthPrefixedSkipMisreadsRow` | `ReplicationDataReaders.SeekEncoded` |
| src/Npgsql/Replication/PgOutput/ReplicationDataReader.cs:403-410 | `ConsumeRow` skips the rest of the current column without updating `PosInColumn`, and `Reset` clears only `_column`, so the next row's first seek skips the same bytes again | two rows of one three-byte text column each; seek the first row's column, consume the row, seek the next row's column | the next row's column is found | medium, not executed | `ReplicationDataReaders.StaleColumnLength` | `ReplicationDataReaders.NextRowAfterConsume` |
| src/Npgsql/Replication/PgOutput/Messages/ReplicationValue.cs:164-178 | `Consume` skips the unread payload without recording it, so `MoveNextAsync` after the end of the row skips it again | a row of one three-byte text column, then `MoveNextAsync` twice after the last column | a step after the end moves nothing | medium, not executed | `InsertMessages.MoveNextAsWrittenSkipsAgain` | `InsertMessages.MoveNextAfterEndStays` |
| src/Npgsql/TypeMapping/BuiltInTypeHandlerResolver.cs:346-347 | the name table has "time" and "timetz" but not "time without time zone" and "time with time zone", the names `Time()` and `TimeTz()` create their handlers under | `ResolveDataTypeName("time without time zone")` gives null | every type resolves under the name its handler is created with | medium, not executed | `BuiltInResolvers.TimeCreationNamesUnresolved` | `BuiltInResolvers.OidAgreesWithCorrectedName` |
| src/Npgsql.NodaTime/Internal/NodaTimeTypeHandlerResolver.cs:75-76 | an `Instant` parameter resolves to the timestamp handler, so it is sent as "timestamp without time zone" | `new NpgsqlParameter { Value = instant }` | "timestamp with time zone", as test/Npgsql.NodaTime.Tests/NodaTimeTests.cs:161-198 expects | medium, not executed | `NodaTimeResolvers.InstantSentAsTimestamp` | `NodaTimeResolvers.InstantSentAsTimestampTz` |
