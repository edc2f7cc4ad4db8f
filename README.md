# VoiceCraft core, modelled in Dafny

VoiceCraft is a proximity voice chat for games. Its pieces:

- A **server** keeps a world of entities. Each entity has an id, a name, a world id, mute and deafen flags, 64-bit talk and listen bitmasks, a position, a rotation and a set of entities it can hear.
- Game clients connect over LiteNetLib.
- A Minecraft add-on connects over a websocket bridge (McWss).
- Every tick the server:
  1. recomputes, for each network entity, which entities are visible to it under the registered audio effects (proximity and visibility effects);
  2. fans every entity change out to the peers that need it.
- The **client** keeps its own copy of the world. It reorders incoming audio frames in a per-entity jitter buffer, mixes the visible entities into one 16-bit PCM stream, and sends its microphone frames with a wrapping timestamp.

The model follows the program's own structure, one module per concern:

| module | file | models |
|---|---|---|
| `Entities` | entities.dfy | the entity class family (plain, Core network, server network, client, client network) and the world |
| `Visibility` | visibility_system.dfy | the server's visibility pass |
| `Effects` | effects.dfy | the proximity and visibility effects and their serialisation |
| `AudioEffects` | audio_effect_system.dfy | the server's effect registry |
| `EventHandlers` | event_handler_system.dfy | the queue of send tasks the server's event handlers fill and `Update` drains |
| `ServerNet` | server_net.dfy | the server's send half: SendPacket, the array SendPacket, Broadcast |
| `VoiceServer` | voicecraft_server.dfy | connection admission and the per-peer packet handlers |
| `McWss` | mcwss_server.dfy | the bridge's login/logout session machine, its queues and its chat-message filter |
| `VoiceClient` | voicecraft_client.dfy | the client: connect guard, speaking switch, write path, packet handlers, disconnect |
| `ClientAudio` | client_audio.dfy | the client's mixer and effect table |
| `Jitter` | jitter_buffer.dfy | the reorder buffer |
| `Codecs` | codecs.dfy | the two fallback codecs' compression ratios and down-sampling loops |
| `HotKeys` | hotkeys.dfy | the Linux hot-key combo tracker |
| `Packets`, `McApiPackets` | packets.dfy, mcapi_packets.dfy | packet codecs, as round trips over a little-endian byte codec (`Wire`) |
| `Enums` | enums.dfy | the enumerations' numbering |
| `Extensions` | extensions.dfy | string truncation and the 16-bit frame peak |

Fixed-width integers are subset types of `int`. C#'s truncating division is `DotNet.CsDiv`, and wrap-around is written out explicitly. Floating-point values are opaque.

Objects whose fields the source mutates are classes with `modifies` frames. Events are modelled as a log field (`events`) on the object that raises them, so "raises X exactly when the value changed" can be stated. Exceptions are an `Outcome` or `Result` value, `Threw(...)` or `Err(...)`, carrying the exception kind.

## Model

| member | source | states |
|---|---|---|
| Entities.EntityTypeOf | VoiceCraft.Server/Data/VoiceCraftNetworkEntity.cs:32 | the network classes report EntityType.Network, the plain ones Server or Client, as each class overrides it |
| Entities.Entity.EntityType | VoiceCraft.Core/VoiceCraftEntity.cs:36 | an entity's EntityType is the one its class declares |
| Entities.EntityRoundTrip | VoiceCraft.Core/VoiceCraftEntity.cs:42-58 | Deserialize of what Serialize wrote restores every field, the name cut to the string bound; it restores the entity exactly when the name fits |
| Entities.GuidFirst | VoiceCraft.Server/Data/VoiceCraftNetworkEntity.cs:34-45 | a server network entity writes its user guid before the base fields; the client network encoding equals it; the Core network encoding equals the plain one |
| Entities.Entity.Plain | VoiceCraft.Core/VoiceCraftEntity.cs:12-31 | a new entity has the given id and world, the default name, no visible entities, no events and the empty guid |
| Entities.Entity.CoreNetwork | VoiceCraft.Core/VoiceCraftNetworkEntity.cs:9-25 | a Core network entity stores its identity fields, is named "New Client", sees itself, and has raised the name and self-visibility events in that order |
| Entities.Entity.ServerNetwork | VoiceCraft.Server/Data/VoiceCraftNetworkEntity.cs:10-25 | a server network entity is tied to its peer, stores its guids, locale and positioning type, and starts as the Core network entity does |
| Entities.Entity.Client | VoiceCraft.Client/VoiceCraft.Client/Network/VoiceCraftClientEntity.cs:12-21 | a client entity starts pristine, with an empty jitter buffer whose drop-out time is the client's jitter delay |
| Entities.Entity.Loudness | VoiceCraft.Core/VoiceCraftEntity.cs:37-38 | the loudness is the last frame's while the entity is speaking and zero otherwise |
| Entities.Entity.SetWorldId | VoiceCraft.Core/VoiceCraftEntity.cs:138-148 | an equal value changes nothing; an over-long one throws ArgumentOutOfRange and changes nothing; otherwise it is stored and exactly one WorldId event is raised |
| Entities.Entity.SetName | VoiceCraft.Core/VoiceCraftEntity.cs:150-160 | the same three cases for the name: no change, a throw without change, or the new name and one Name event |
| Entities.Entity.SetMuted | VoiceCraft.Core/VoiceCraftEntity.cs:162-171 | the flag is stored; the Mute event is raised exactly when the value changed |
| Entities.Entity.SetDeafened | VoiceCraft.Core/VoiceCraftEntity.cs:173-182 | the flag is stored; the Deafen event is raised exactly when the value changed |
| Entities.Entity.SetTalkBitmask | VoiceCraft.Core/VoiceCraftEntity.cs:184-193 | the talk mask is stored; on a change the listen-bitmask event fires, as the setter is written |
| Entities.Entity.SetListenBitmask | VoiceCraft.Core/VoiceCraftEntity.cs:195-204 | the listen mask is stored; on a change the talk-bitmask event fires, as the setter is written |
| Entities.Entity.SetPosition | VoiceCraft.Core/VoiceCraftEntity.cs:206-215 | the position is stored; the Position event is raised exactly when it changed |
| Entities.Entity.SetRotation | VoiceCraft.Core/VoiceCraftEntity.cs:217-226 | the rotation is stored; the Rotation event is raised exactly when it changed |
| Entities.Entity.AddVisibleEntity | VoiceCraft.Core/VoiceCraftEntity.cs:79-83 | adds the entity under its id and raises the Added event exactly when the id was absent; a present id leaves the set unchanged |
| Entities.Entity.RemoveVisibleEntity | VoiceCraft.Core/VoiceCraftEntity.cs:85-89 | the id is gone afterwards; the Removed event is raised exactly when it was there |
| Entities.Entity.TrimVisibleDeadEntities | VoiceCraft.Core/VoiceCraftEntity.cs:91-97 | exactly the destroyed entries are removed and every other entry is kept as it was |
| Entities.Entity.ReceiveAudio | VoiceCraft.Client/VoiceCraft.Client/Network/VoiceCraftClientEntity.cs:104-113 | records loudness and time and raises the audio event; a client entity also queues the frame in its jitter buffer as Add specifies |
| Entities.Entity.Destroy | VoiceCraft.Core/VoiceCraftEntity.cs:113-132 | the first call marks the entity destroyed, raises OnDestroyed once, drops every subscriber, and has a subscribed world remove it; later calls change nothing |
| Entities.Entity.Deserialize | VoiceCraft.Core/VoiceCraftEntity.cs:49-58 | unreadable bytes change nothing; readable ones set every field to the decoded value, raising the setters' events |
| Entities.Entity.Reset | VoiceCraft.Core/VoiceCraftEntity.cs:60-63 | a plain entity is destroyed; a network entity instead returns to its login state through the setters and stays alive |
| Entities.Entity.RestoreLoginState | VoiceCraft.Server/Data/VoiceCraftNetworkEntity.cs:47-56 | after a network Reset the entity is in its login state, and exactly the setters' change events were raised, in setter order |
| Entities.Entity.RestoreName | VoiceCraft.Server/Data/VoiceCraftNetworkEntity.cs:50-52 | the name, world id and position are back at their login values |
| Entities.Entity.RestoreOrientation | VoiceCraft.Server/Data/VoiceCraftNetworkEntity.cs:53-55 | the rotation is back at zero and both masks at the reset bitmask |
| Entities.ResetBitmask | VoiceCraft.Core/VoiceCraftNetworkEntity.cs:40-41 | the Core class resets the masks to uint.MaxValue, the server and client classes to ulong.MaxValue |
| Entities.Entity.SetIsVisible | VoiceCraft.Client/VoiceCraft.Client/Network/VoiceCraftClientEntity.cs:23-32 | the flag is stored; its event is raised exactly on a change |
| Entities.Entity.SetVolume | VoiceCraft.Client/VoiceCraft.Client/Network/VoiceCraftClientEntity.cs:34-43 | a value within the tolerance of the current volume is no change; any other value is stored and raises one event |
| Entities.Entity.SetUserMuted | VoiceCraft.Client/VoiceCraft.Client/Network/VoiceCraftClientEntity.cs:45-54 | the flag is stored; its event is raised exactly on a change |
| Entities.Entity.ClearBuffer | VoiceCraft.Client/VoiceCraft.Client/Network/VoiceCraftClientEntity.cs:67-74 | the output buffer and the jitter buffer are both empty afterwards |
| Entities.Entity.Read | VoiceCraft.Client/VoiceCraft.Client/Network/VoiceCraftClientEntity.cs:76-102 | while user-muted, reads nothing and discards the output; otherwise hands out the first min(count, buffered) samples in order and keeps the rest; when speech ends on an empty output the concealment frame is written over the buffer's start; speech start and stop are raised only on a change |
| Entities.Entity.Conceal | VoiceCraft.Client/VoiceCraft.Client/Network/VoiceCraftClientEntity.cs:91-92 | the decoder's concealment frame overwrites the start of the buffer and nothing after it |
| Entities.Overlaid | VoiceCraft.Client/VoiceCraft.Client/Network/VoiceCraftClientEntity.cs:91-92 | the overwritten buffer keeps its length, takes the frame's samples where the frame reaches and keeps its own elsewhere |
| Entities.Entity.GetNextPacket | VoiceCraft.Client/VoiceCraft.Client/Network/VoiceCraftClientEntity.cs:133-155 | a too-short buffer yields 0 and touches nothing; otherwise the jitter buffer steps as Get specifies; a frame is decoded; a gap is concealed only within the silence threshold |
| Entities.World.constructor | VoiceCraft.Core/VoiceCraftWorld.cs:10 | a new world is empty and valid |
| Entities.World.GetLowestAvailableId | VoiceCraft.Core/VoiceCraftWorld.cs:84-91 | returns the smallest unused id, or throws exactly when every tried id is taken |
| Entities.World.CreateEntity | VoiceCraft.Core/VoiceCraftWorld.cs:28-38 | a new entity, subscribed to by the world, is stored under the lowest free id and announced once; on no free id nothing changes |
| Entities.World.AddEntity | VoiceCraft.Core/VoiceCraftWorld.cs:40-49 | a taken id throws with no change; a free id is stored; a foreign world then throws, unannounced and unsubscribed, otherwise the entity is announced and subscribed |
| Entities.World.GetEntity | VoiceCraft.Core/VoiceCraftWorld.cs:51-55 | finds an entity exactly when its id is stored, and then the stored one |
| Entities.World.DestroyEntity | VoiceCraft.Core/VoiceCraftWorld.cs:57-64 | an unknown id throws with no change; a known one is removed, destroyed and announced exactly once |
| Entities.World.ClearEntities | VoiceCraft.Core/VoiceCraftWorld.cs:66-75 | the world is empty, every former entity is destroyed, and no removal event is raised |
| Entities.World.RemoveEntity | VoiceCraft.Core/VoiceCraftWorld.cs:77-82 | the id is gone; the removal is announced exactly when it was stored |
| Entities.FreeIdExists | VoiceCraft.Core/VoiceCraftWorld.cs:84-90 | a world with fewer than int.MaxValue entities always has a free id |
| Entities.LowestFreeUnique | VoiceCraft.Core/VoiceCraftWorld.cs:84-88 | the lowest free id is unique |
| Jitter.WrapZoneBounds | VoiceCraft.Client/VoiceCraft.Client/Network/JitterBuffer.cs:27-35 | the two wrap zones are the sequence numbers above 3221225470 and below 1073741823 |
| Jitter.JitterBuffer.constructor | VoiceCraft.Client/VoiceCraft.Client/Network/JitterBuffer.cs:14-17 | a new buffer is empty, with no expected sequence and the given drop-out time |
| Jitter.JitterBuffer.Add | VoiceCraft.Client/VoiceCraft.Client/Network/JitterBuffer.cs:59-108 | the list after Add is the specified scan's result, and the cursor is unchanged |
| Jitter.JitterBuffer.Get | VoiceCraft.Client/VoiceCraft.Client/Network/JitterBuffer.cs:37-57 | the outcome, list and cursor are those of the specified step |
| Jitter.JitterBuffer.Reset | VoiceCraft.Client/VoiceCraft.Client/Network/JitterBuffer.cs:110-114 | the list is empty and the cursor cleared |
| Jitter.ScanFromShape | VoiceCraft.Client/VoiceCraft.Client/Network/JitterBuffer.cs:84-107 | from any node on, the scan either leaves the list as it is or inserts the new frame once |
| Jitter.AddInsertsAtMostOnce | VoiceCraft.Client/VoiceCraft.Client/Network/JitterBuffer.cs:59-108 | Add never loses a frame: the list is unchanged or gains exactly the new frame at one place |
| Jitter.ScanFromMiddle | VoiceCraft.Client/VoiceCraft.Client/Network/JitterBuffer.cs:84-107 | away from the wrap zones the scan keeps the list strictly descending, inserts a new frame just before the first node with a smaller sequence number, and drops duplicates and frames older than everything buffered |
| Jitter.AddKeepsDescending | VoiceCraft.Client/VoiceCraft.Client/Network/JitterBuffer.cs:84-107 | away from the wrap zones Add keeps the list strictly descending, inserts a new frame just before the first node with a smaller sequence number, drops a duplicate, and drops a frame older than a non-empty list holds |
| Jitter.GetEmpty | VoiceCraft.Client/VoiceCraft.Client/Network/JitterBuffer.cs:40-43 | an empty buffer yields nothing and stays as it is |
| Jitter.GetDelivers | VoiceCraft.Client/VoiceCraft.Client/Network/JitterBuffer.cs:45-56 | Get waits exactly when the oldest frame is not the expected one and is younger than the drop-out time; otherwise it delivers the oldest frame, which leaves the list, and expects the next number mod 65536; it throws on the uint overflow |
| Jitter.HighSequenceAlwaysWaits | VoiceCraft.Client/VoiceCraft.Client/Network/JitterBuffer.cs:45-55 | since the cursor is 16 bits, a frame numbered above 65535 is never expected and always waits out the drop-out time |
| Jitter.FiveThreeFour | VoiceCraft.Client/VoiceCraft.Client/Network/JitterBuffer.cs:59-108 | frames 5, 3, 4 arriving in that order: 3 and 4 are dropped, and the buffer delivers 5 and then nothing |
| ClientAudio.ClampNearest | VoiceCraft.Client/VoiceCraft.Client/Network/Systems/AudioSystem.cs:161-162 | the clamped sum is the 16-bit sample nearest the exact sum, and equals it when it fits |
| ClientAudio.MixSilence | VoiceCraft.Client/VoiceCraft.Client/Network/Systems/AudioSystem.cs:157-164 | mixing silence leaves the destination unchanged |
| ClientAudio.MixCommutesWithoutClipping | VoiceCraft.Client/VoiceCraft.Client/Network/Systems/AudioSystem.cs:47-55 | when no sum clips, the order in which two sources are mixed does not matter |
| ClientAudio.MixOrderMatters | VoiceCraft.Client/VoiceCraft.Client/Network/Systems/AudioSystem.cs:47-55 | with clipping it does: a concrete pair mixes differently in the two orders |
| ClientAudio.Silence | VoiceCraft.Client/VoiceCraft.Client/Network/Systems/AudioSystem.cs:61 | samples in the range become 0 and the rest are kept |
| ClientAudio.Pcm16Mix | VoiceCraft.Client/VoiceCraft.Client/Network/Systems/AudioSystem.cs:157-164 | each of the first count samples becomes the clamped sum and the rest are kept |
| ClientAudio.MixFrames | VoiceCraft.Client/VoiceCraft.Client/Network/Systems/AudioSystem.cs:47-57 | mixing frames one after another keeps the buffer's length |
| ClientAudio.Longest | VoiceCraft.Client/VoiceCraft.Client/Network/Systems/AudioSystem.cs:56 | the longest frame's length: at least every frame's length and equal to one of them, 0 with no frames |
| ClientAudio.Silenced | VoiceCraft.Client/VoiceCraft.Client/Network/Systems/AudioSystem.cs:61 | exactly the samples in the range are zero; the others are unchanged |
| ClientAudio.Taken | VoiceCraft.Client/VoiceCraft.Client/Network/VoiceCraftClientEntity.cs:87 | what a read hands out is a prefix of the output of at most count samples, and non-empty when there is output and the entity is not muted |
| ClientAudio.Remaining | VoiceCraft.Client/VoiceCraft.Client/Network/VoiceCraftClientEntity.cs:87 | what is handed out followed by what remains is the old output; a muted entity keeps nothing |
| ClientAudio.FirstNull | VoiceCraft.Client/VoiceCraft.Client/Network/Systems/AudioSystem.cs:111-115 | the position of the first null entry: all before it are non-null |
| ClientAudio.RemovalEvents | VoiceCraft.Client/VoiceCraft.Client/Network/Systems/AudioSystem.cs:111-115 | each entry is disposed and then announced, two events per entry in copy order |
| ClientAudio.ClearWithoutNulls | VoiceCraft.Client/VoiceCraft.Client/Network/Systems/AudioSystem.cs:105-117 | a table without null entries is cleared without an exception |
| ClientAudio.AudioSystem.constructor | VoiceCraft.Client/VoiceCraft.Client/Network/Systems/AudioSystem.cs:10-14 | a new system has no effects and an empty scratch buffer |
| ClientAudio.AudioSystem.Read | VoiceCraft.Client/VoiceCraft.Client/Network/Systems/AudioSystem.cs:39-63 | reports count; the buffer is the mix of each visible client entity's frame in enumeration order, silenced past the longest frame; every entity advances as its own Read specifies |
| DotNet.Entries | VoiceCraft.Server/Systems/AudioEffectSystem.cs:51 | the key/value pairs a dictionary enumerates are exactly the map's, on the server's and the client's effect tables alike |
| ClientAudio.AudioSystem.MixInto | VoiceCraft.Client/VoiceCraft.Client/Network/Systems/AudioSystem.cs:41-62 | for a given enumeration, the scratch buffer grows to count and the result is as Read states |
| ClientAudio.AudioSystem.GrowScratch | VoiceCraft.Client/VoiceCraft.Client/Network/Systems/AudioSystem.cs:41-44 | the scratch buffer becomes at least count long, reallocated only when too short |
| ClientAudio.AudioSystem.MixAll | VoiceCraft.Client/VoiceCraft.Client/Network/Systems/AudioSystem.cs:46-57 | the loop leaves the mix of all frames and the longest frame's length |
| ClientAudio.AudioSystem.MixNext | VoiceCraft.Client/VoiceCraft.Client/Network/Systems/AudioSystem.cs:47-56 | one loop turn extends the mix and the longest length by the next entity's frame and leaves later entities untouched |
| ClientAudio.AudioSystem.MixEntity | VoiceCraft.Client/VoiceCraft.Client/Network/Systems/AudioSystem.cs:49-55 | one entity's contribution is its Read output shaped by the float stage and clamped into the buffer |
| ClientAudio.AudioSystem.SetEffect | VoiceCraft.Client/VoiceCraft.Client/Network/Systems/AudioSystem.cs:75-83 | the index holds the effect, which may be null, afterwards, and OnEffectSet is raised once |
| ClientAudio.AudioSystem.TryGetEffect | VoiceCraft.Client/VoiceCraft.Client/Network/Systems/AudioSystem.cs:85-92 | found exactly when the index holds a non-null effect, which is returned |
| ClientAudio.AudioSystem.RemoveEffect | VoiceCraft.Client/VoiceCraft.Client/Network/Systems/AudioSystem.cs:94-103 | an absent index throws with no change; a present one is removed, and a non-null effect is disposed and announced while a null one throws NullReference |
| ClientAudio.AudioSystem.ClearEffects | VoiceCraft.Client/VoiceCraft.Client/Network/Systems/AudioSystem.cs:105-117 | the table is emptied; the copied entries are disposed and announced in order up to the first null entry, which throws NullReference |
| ClientAudio.AudioSystem.DisposeEach | VoiceCraft.Client/VoiceCraft.Client/Network/Systems/AudioSystem.cs:111-115 | the loop disposes and announces the copied entries in order up to the first null entry, where it throws NullReference |
| ClientAudio.AudioSystem.Dispose | VoiceCraft.Client/VoiceCraft.Client/Network/Systems/AudioSystem.cs:28-34 | dispose clears the effects exactly as ClearEffects does |
| ClientAudio.AudioSystem.GetLowestAvailableId | VoiceCraft.Client/VoiceCraft.Client/Network/Systems/AudioSystem.cs:119-126 | the smallest unused index below 255, or a throw exactly when all are taken |
| ClientAudio.AudioSystem.AddEffect | VoiceCraft.Client/VoiceCraft.Client/Network/Systems/AudioSystem.cs:65-73 | as written, the inverted TryAdd check makes a successful insertion throw, with the effect stored under the lowest free index |
| ClientAudio.SilenceAfterLongest | VoiceCraft.Client/VoiceCraft.Client/Network/Systems/AudioSystem.cs:59-62 | every sample between the longest frame and count is silent |
| AudioEffects.AudioEffectSystem.constructor | VoiceCraft.Server/Systems/AudioEffectSystem.cs:7 | a new registry is empty |
| AudioEffects.AudioEffectSystem.SetEffect | VoiceCraft.Server/Systems/AudioEffectSystem.cs:34-39 | the index holds the effect afterwards, whether added or overwritten, and OnEffectSet is raised once |
| AudioEffects.AudioEffectSystem.RemoveEffect | VoiceCraft.Server/Systems/AudioEffectSystem.cs:41-47 | an absent index throws with no change; a present one is removed, disposed and announced once |
| AudioEffects.AudioEffectSystem.ClearEffects | VoiceCraft.Server/Systems/AudioEffectSystem.cs:49-58 | the table is emptied and every former entry is disposed and announced, in copy order |
| AudioEffects.AudioEffectSystem.Reset | VoiceCraft.Server/Systems/AudioEffectSystem.cs:19-22 | Reset clears the registry exactly as ClearEffects does |
| AudioEffects.AudioEffectSystem.GetLowestAvailableId | VoiceCraft.Server/Systems/AudioEffectSystem.cs:60-67 | the smallest unused index below 255, or a throw exactly when all are taken |
| AudioEffects.AudioEffectSystem.AddEffect | VoiceCraft.Server/Systems/AudioEffectSystem.cs:27-32 | as written, the inverted TryAdd check makes a successful insertion throw, with the effect stored under the lowest free index |
| AudioEffects.LowestFreeIndexUnique | VoiceCraft.Server/Systems/AudioEffectSystem.cs:62-64 | the lowest free index is unique and never 255 |
| AudioEffects.FreeIndexExists | VoiceCraft.Server/Systems/AudioEffectSystem.cs:60-67 | a registry with fewer than 255 entries always has a free index |
| AudioEffects.ClearEventsReach | VoiceCraft.Server/Systems/AudioEffectSystem.cs:53-57 | the clear raises exactly one dispose and one removal per copied entry, and no other events |
| AudioEffects.ClearEventsAt | VoiceCraft.Server/Systems/AudioEffectSystem.cs:53-57 | the k-th entry's dispose comes just before its removal, at positions 2k and 2k+1 |
| AudioEffects.ClearRemovesEveryEntry | VoiceCraft.Server/Systems/AudioEffectSystem.cs:49-58 | over a whole table, a removal is announced exactly for each entry it held |
| Effects.DeclaredEffectType | VoiceCraft.Core/Audio/Effects/ProximityEffect.cs:12 | only the proximity effect names an EffectType member that the enumeration declares |
| Effects.VisibilityEffectVisible | VoiceCraft.Core/Audio/Effects/VisibilityEffect.cs:30-37 | a visibility effect whose bit is not set in both entities' masks lets everything through; otherwise it requires the same non-blank world |
| Effects.EffectAllowsFacts | VoiceCraft.Core/Audio/Effects/ProximityEffect.cs:41-47 | an effect that cannot veto never does; a proximity effect gates on its bitmask, ignores MinRange and the world, and otherwise needs the distance within MaxRange |
| Effects.VisibilityEffectNeedsSameWorld | VoiceCraft.Core/Audio/Effects/VisibilityEffect.cs:32-36 | entities in different non-blank worlds are separated only when the effect's bit is active |
| Effects.Process | VoiceCraft.Core/Audio/Effects/ProximityEffect.cs:16-19 | the proximity effect's Process throws NotSupported and the visibility effect's does nothing |
| Effects.EffectRoundTrip | VoiceCraft.Core/Audio/Effects/ProximityEffect.cs:21-33 | deserializing what an effect of the same kind wrote restores it exactly and leaves the rest of the input |
| Visibility.VisibilitySystem.constructor | VoiceCraft.Server/Systems/VisibilitySystem.cs:6 | the system reads the given world and effect registry |
| Visibility.VisibilitySystem.EntityVisibility | VoiceCraft.Server/Systems/VisibilitySystem.cs:37-47 | true exactly when the talk and listen masks share a bit and no registered effect vetoes |
| Visibility.VisibilitySystem.Consider | VoiceCraft.Server/Systems/VisibilitySystem.cs:26-33 | a candidate that passes is in the visible set afterwards, and one that fails is not; the add and remove events are raised only on a change |
| Visibility.VisibilitySystem.UpdateVisibleNetworkEntities | VoiceCraft.Server/Systems/VisibilitySystem.cs:17-35 | after the pass the visible set holds exactly the surviving entries plus the candidates that pass, minus those that fail, and every event raised is a due addition or removal |
| Visibility.VisibilitySystem.ConsiderEach | VoiceCraft.Server/Systems/VisibilitySystem.cs:24-34 | the candidate loop keeps the pass invariant over the examined keys |
| Visibility.VisibilitySystem.ConsiderEntry | VoiceCraft.Server/Systems/VisibilitySystem.cs:26-33 | one candidate extends the pass invariant by its key |
| Visibility.VisibilitySystem.Update | VoiceCraft.Server/Systems/VisibilitySystem.cs:8-15 | every entity of the world ends with the visible set its pass specifies, and every raised event was raised by an entity as its pass allows |
| Visibility.VisibilitySystem.UpdateAll | VoiceCraft.Server/Systems/VisibilitySystem.cs:11-14 | the loop over the world's enumeration gives every entity its specified visible set |
| Visibility.VisibleToPassesWorldGates | VoiceCraft.Core/VoiceCraftEntity.cs:106-111 | an entity's VisibleTo implies that the talk and listen masks share a bit and that any visibility effect lets the pair through |
| EventHandlers.EventHandlerSystem.constructor | VoiceCraft.Server/Systems/EventHandlerSystem.cs:18-28 | a new handler system has an empty task queue |
| EventHandlers.EventHandlerSystem.OnEntityCreated | VoiceCraft.Server/Systems/EventHandlerSystem.cs:70-105 | the handlers subscribe to the new entity; a network entity's peer is sent every effect and every other entity; the creation is queued for broadcast |
| EventHandlers.EventHandlerSystem.SendSnapshot | VoiceCraft.Server/Systems/EventHandlerSystem.cs:77-93 | the new peer is sent the effect table, then the other entities |
| EventHandlers.EventHandlerSystem.SendEffects | VoiceCraft.Server/Systems/EventHandlerSystem.cs:80-84 | one SetEffect packet per registry entry, in enumeration order |
| EventHandlers.EventHandlerSystem.SendOthers | VoiceCraft.Server/Systems/EventHandlerSystem.cs:87-92 | one EntityCreated packet per other entity of the world |
| EventHandlers.EventHandlerSystem.OnEntityDestroyed | VoiceCraft.Server/Systems/EventHandlerSystem.cs:107-123 | a network entity's peer is disconnected, the destruction is broadcast to every network entity, and the handlers unsubscribe |
| EventHandlers.EventHandlerSystem.OnEntityEvent | VoiceCraft.Server/Systems/EventHandlerSystem.cs:126-236 | each entity event appends exactly its specified task |
| EventHandlers.EventHandlerSystem.OnEffectEvent | VoiceCraft.Server/Systems/EventHandlerSystem.cs:47-63 | an effect set or removal appends a broadcast of the SetEffect packet |
| EventHandlers.EventHandlerSystem.RunTask | VoiceCraft.Server/Systems/EventHandlerSystem.cs:41 | running a task sends exactly its specified sends over what it enumerates, and throws exactly when the task is specified to throw |
| EventHandlers.EventHandlerSystem.Update | VoiceCraft.Server/Systems/EventHandlerSystem.cs:39-43 | when no task throws, the queue is drained and the sends are those of every queued task in queue order; when one throws, the tasks before it have run, the queue is kept, and a queued effect removal always throws |
| EventHandlers.EventHandlerSystem.RunAll | VoiceCraft.Server/Systems/EventHandlerSystem.cs:41 | a queue runs in order up to and including the first task that throws; the sends are the concatenation of the tasks run |
| EventHandlers.SendsReach | VoiceCraft.Server/Systems/EventHandlerSystem.cs:39-43 | a task's sends match an independent description of whom it reaches and with what, nothing for a packet that does not serialize |
| EventHandlers.ThrowsSendsNothing | VoiceCraft.Server/Systems/EventHandlerSystem.cs:41 | a task that throws has sent nothing |
| EventHandlers.NoneThrowAt | VoiceCraft.Server/Systems/EventHandlerSystem.cs:41 | in a run where no task throws, no single task throws |
| EventHandlers.EffectSetFanOut | VoiceCraft.Server/Systems/EventHandlerSystem.cs:47-54 | setting an effect broadcasts it without a throw to the peer of every network entity of the world |
| EventHandlers.EffectRemovalThrows | VoiceCraft.Server/Systems/EventHandlerSystem.cs:56-62 | removing an effect queues one broadcast of the bare index, which throws NullReference when it runs and sends nothing |
| EventHandlers.AllSendsReach | VoiceCraft.Server/Systems/EventHandlerSystem.cs:41 | a run sends exactly what some task of it sends |
| EventHandlers.NameFanOut | VoiceCraft.Server/Systems/EventHandlerSystem.cs:126-133 | a name change is broadcast to the peer of every network entity of the world, the origin's own included |
| EventHandlers.MuteDeafenFanOut | VoiceCraft.Server/Systems/EventHandlerSystem.cs:135-157 | a mute or deafen change is broadcast to the peer of every network entity of the world except the origin's own |
| EventHandlers.PoseFanOut | VoiceCraft.Server/Systems/EventHandlerSystem.cs:159-198 | a mask, position or rotation change reaches exactly the connected peers of network entities in the origin's visible set (itself included when it sees itself), with the packet of that event |
| EventHandlers.AudioFanOut | VoiceCraft.Server/Systems/EventHandlerSystem.cs:227-236 | audio reaches exactly the connected peers of network entities in the sender's visible set, never the sender itself |
| EventHandlers.VisibleAddedFanOut | VoiceCraft.Server/Systems/EventHandlerSystem.cs:202-219 | an entity coming into view queues work only when it is a network entity; its peer, if connected, is then sent the five packets describing the observer, in order |
| EventHandlers.VisibleRemovedFanOut | VoiceCraft.Server/Systems/EventHandlerSystem.cs:221-225 | an entity leaving view queues work only when it is a network entity; its peer, if connected, is told the observer is no longer visible |
| EventHandlers.SwappedBitmaskPackets | VoiceCraft.Server/Systems/EventHandlerSystem.cs:159-177 | the listen event sends a listen packet and the talk event a talk packet, so with the swapped setters a talk change goes out as a listen packet |
| EventHandlers.EffectSendsReach | VoiceCraft.Server/Systems/EventHandlerSystem.cs:80-84 | a connected new peer is sent a SetEffect packet for exactly each registry entry |
| EventHandlers.OthersSendsReach | VoiceCraft.Server/Systems/EventHandlerSystem.cs:87-92 | a connected new peer is told about exactly each other entity |
| ServerNet.Transport.constructor | VoiceCraft.Server/Servers/VoiceCraftServer.cs:21 | a new transport has sent nothing |
| ServerNet.Transport.SendPacket | VoiceCraft.Server/Servers/VoiceCraftServer.cs:98-110 | a disconnected peer gets nothing and false; a connected one is sent the packet and true, unless the packet does not serialize, when the call throws NullReference and sends nothing |
| ServerNet.Transport.SendPacketAll | VoiceCraft.Server/Servers/VoiceCraftServer.cs:112-134 | a packet that does not serialize throws NullReference before any send; otherwise every connected peer is sent it in array order, and the result is true exactly when all were connected |
| ServerNet.Transport.SendConnected | VoiceCraft.Server/Servers/VoiceCraftServer.cs:120-132 | the loop sends to each connected peer in order and reports whether every peer was connected |
| ServerNet.Transport.SendToPeer | VoiceCraft.Server/Servers/VoiceCraftServer.cs:121-130 | one loop step sends to the peer exactly when it is connected |
| ServerNet.Transport.Broadcast | VoiceCraft.Server/Servers/VoiceCraftServer.cs:147-162 | a packet that does not serialize throws NullReference and nothing is sent; otherwise one send per network entity whose peer is not excluded, in the world's enumeration order, with no check of the peer's connection state |
| ServerNet.Transport.SendToVisible | VoiceCraft.Server/Systems/EventHandlerSystem.cs:164-165 | one send per connected network entity in the visible set other than the excepted one; it throws NullReference exactly when such an entity exists and the packet does not serialize |
| ServerNet.Transport.SendToEntry | VoiceCraft.Server/Systems/EventHandlerSystem.cs:165 | one loop step sends for the entry exactly when it qualifies, and throws exactly when it qualifies and the packet does not serialize |
| ServerNet.BroadcastReaches | VoiceCraft.Server/Servers/VoiceCraftServer.cs:152-160 | a Broadcast reaches a peer exactly when the packet serializes and an enumerated network entity has that peer that is not excluded, connected or not |
| ServerNet.BroadcastCount | VoiceCraft.Server/Servers/VoiceCraftServer.cs:155-160 | a Broadcast sends exactly once per recipient when the packet serializes, and not at all otherwise |
| ServerNet.VisibleReaches | VoiceCraft.Server/Systems/EventHandlerSystem.cs:164-165 | a visible-set send reaches a peer exactly when the packet serializes and a qualifying visible entity has that peer |
| ServerNet.ConnectedReaches | VoiceCraft.Server/Servers/VoiceCraftServer.cs:112-134 | the array SendPacket reaches exactly the connected peers of the array, and only with a packet that serializes |
| ServerNet.NoConnectedSends | VoiceCraft.Server/Servers/VoiceCraftServer.cs:116-118 | a packet that does not serialize reaches no peer of the array |
| ServerNet.NoVisibleSends | VoiceCraft.Server/Systems/EventHandlerSystem.cs:164-165 | a packet that does not serialize reaches no visible peer |
| ServerNet.SerializesAsCodec | VoiceCraft.Core/Network/Packets/SetEffectPacket.cs:22-27 | a SetEffect packet serializes exactly when it carries an effect, as the packet codec states |
| VoiceServer.AdmissionAccepts | VoiceCraft.Server/Servers/VoiceCraftServer.cs:231-256 | a request is accepted exactly when it is a login of a compatible version and the server is below capacity |
| VoiceServer.VersionBeforeCapacity | VoiceCraft.Server/Servers/VoiceCraftServer.cs:233-243 | an incompatible login to a full server is rejected for its version |
| VoiceServer.BuildIgnored | VoiceCraft.Server/Servers/VoiceCraftServer.cs:233 | the build number never changes the answer |
| VoiceServer.AdmissionMonotone | VoiceCraft.Server/Servers/VoiceCraftServer.cs:239-243 | fewer connected peers never turn an acceptance into a rejection |
| VoiceServer.Target | VoiceCraft.Server/Servers/VoiceCraftServer.cs:265-266 | a peer's packets act on the world's entity under the peer's id, and only when it is a server network entity |
| VoiceServer.VoiceCraftServer.constructor | VoiceCraft.Server/Servers/VoiceCraftServer.cs:34-49 | the server wires its world, transport and handlers with the given capacity |
| VoiceServer.VoiceCraftServer.OnConnectionRequest | VoiceCraft.Server/Servers/VoiceCraftServer.cs:290-308 | the answer is the admission decision; a rejection changes nothing; an acceptance adds the peer's network entity, unless its id is taken, in which case the peer is disconnected |
| VoiceServer.VoiceCraftServer.AddNetworkEntity | VoiceCraft.Server/Servers/VoiceCraftServer.cs:245-255 | the peer is tagged with a fresh network entity carrying the login's data; it is added to the world exactly when the id was free |
| VoiceServer.VoiceCraftServer.HandleSetMutePacket | VoiceCraft.Server/Servers/VoiceCraftServer.cs:270-275 | applied exactly when the peer has its own network entity, which is then muted through the setter and its event queued |
| VoiceServer.VoiceCraftServer.HandleSetDeafenPacket | VoiceCraft.Server/Servers/VoiceCraftServer.cs:277-282 | applied exactly when the peer has its own network entity, which is then deafened through the setter and its event queued |
| VoiceServer.VoiceCraftServer.HandleAudioPacket | VoiceCraft.Server/Servers/VoiceCraftServer.cs:263-268 | applied exactly when the peer has its own network entity, which then receives the frame and queues its fan-out |
| VoiceServer.VoiceCraftServer.OnPeerDisconnected | VoiceCraft.Server/Servers/VoiceCraftServer.cs:284-288 | an untagged peer changes nothing; for a tagged one the world destroys the entity under its id, throwing NotFound when there is none, and the destruction is broadcast |
| McWss.OnlyLoginWhileDisconnected | VoiceCraft.Server/Servers/McWssServer.cs:188-198 | until a peer is connected, every packet but a login is ignored |
| McWss.LoginAccepted | VoiceCraft.Server/Servers/McWssServer.cs:235-256 | a login is accepted, granting the new session token, exactly when the peer is disconnected, the token matches or none is configured, and the version matches |
| McWss.TokenBeforeVersion | VoiceCraft.Server/Servers/McWssServer.cs:243-252 | the token is checked before the version |
| McWss.ReLoginKeepsSession | VoiceCraft.Server/Servers/McWssServer.cs:237-241 | a login on a connected peer re-sends the current session token and changes nothing |
| McWss.LoginThenLogout | VoiceCraft.Server/Servers/McWssServer.cs:254-262 | after a login, a logout with the granted token ends the session, while one with another token is ignored |
| McWss.NoSessionWithoutLogin | VoiceCraft.Server/Servers/McWssServer.cs:103-117 | without a login among them, any run of packets leaves a disconnected peer as it is and replies nothing |
| McWss.InboundTextStripsPrefix | VoiceCraft.Server/Servers/McWssServer.cs:175-181 | a chat message is forwarded exactly when it is addressed to its sender and starts with the prefix; putting the prefix back gives the message |
| McWss.OnlyFirstPrefixStripped | VoiceCraft.Server/Servers/McWssServer.cs:180 | a second occurrence of the prefix stays in the forwarded text |
| McWss.Commands | VoiceCraft.Server/Servers/McWssServer.cs:95-98 | each outbound packet becomes one command request to the client, in order |
| McWss.McApiNetPeer.constructor | VoiceCraft.Server/Servers/McWssServer.cs:132 | a new peer is disconnected, with no token, empty queues and the current time as its last ping |
| McWss.McWssServer.constructor | VoiceCraft.Server/Servers/McWssServer.cs:23-25 | a new server has no peers and has sent nothing |
| McWss.McWssServer.HandlePacket | VoiceCraft.Server/Servers/McWssServer.cs:188-268 | the peer's new state and the replies on its queue or to the client are those of the session machine |
| McWss.McWssServer.HandleLogin | VoiceCraft.Server/Servers/McWssServer.cs:235-256 | a connected peer is re-sent its token; otherwise a wrong login token, then a wrong version, is denied to the client; otherwise a session opens under the new token |
| McWss.McWssServer.UpdatePeer | VoiceCraft.Server/Servers/McWssServer.cs:101-128 | the inbound queue is handled in order by the session machine and emptied, then the outbound queue is drained to the websocket |
| McWss.McWssServer.HandleInbound | VoiceCraft.Server/Servers/McWssServer.cs:103-117 | the inbound loop's effect is the session machine's run over the decoded packets |
| McWss.McWssServer.SendOutbound | VoiceCraft.Server/Servers/McWssServer.cs:119-122 | the outbound queue is emptied into the websocket as commands, in order |
| McWss.McWssServer.OnClientConnected | VoiceCraft.Server/Servers/McWssServer.cs:130-136 | a new client gets a fresh peer and a known one keeps its peer; the event subscription is sent either way |
| McWss.McWssServer.OnClientDisconnected | VoiceCraft.Server/Servers/McWssServer.cs:138-144 | the client's peer is removed and left disconnected |
| McWss.McWssServer.HandleEventPacket | VoiceCraft.Server/Servers/McWssServer.cs:169-186 | a known client's forwarded text is queued inbound on its peer; anything else changes nothing |
| VoiceClient.ClientVersionAccepted | VoiceCraft.Client/VoiceCraft.Client/Network/VoiceCraftClient.cs:18 | the client's version passes the server's version check |
| VoiceClient.SpeakingStep | VoiceCraft.Client/VoiceCraft.Client/Network/VoiceCraftClient.cs:130-142 | the client is speaking exactly while the last loud frame is within the threshold; the event fires only on a change |
| VoiceClient.SpeakingFlipsAlternate | VoiceCraft.Client/VoiceCraft.Client/Network/VoiceCraftClient.cs:130-142 | over any run of updates the raised values alternate, starting with the opposite of the initial state |
| VoiceClient.AdvancedWraps | VoiceCraft.Client/VoiceCraft.Client/Network/VoiceCraftClient.cs:172 | n writes advance the send timestamp by n modulo 2^32 |
| VoiceClient.LogoutReasonArrives | VoiceCraft.Client/VoiceCraft.Client/Network/VoiceCraftClient.cs:272-282 | a server that disconnects with a Logout packet delivers its reason, cut to the bound, to OnDisconnected |
| VoiceClient.SetEffectDelivered | VoiceCraft.Client/VoiceCraft.Client/Network/VoiceCraftClient.cs:440-470 | a proximity effect the server sends arrives whole at the same index |
| VoiceClient.UnknownTypeSetsNull | VoiceCraft.Client/VoiceCraft.Client/Network/VoiceCraftClient.cs:462-468 | a type byte EffectType does not define stores a null effect at the index |
| VoiceClient.VoiceCraftClient.constructor | VoiceCraft.Client/VoiceCraft.Client/Network/VoiceCraftClient.cs:56-83 | a new client has an empty world, no server, no id, timestamp 0 and nothing sent |
| VoiceClient.VoiceCraftClient.Connect | VoiceCraft.Client/VoiceCraft.Client/Network/VoiceCraftClient.cs:110-125 | throws when disposed or not disconnected, changing nothing; otherwise resets speaking and records one connect with the login data, whose null answer throws and keeps the old peer |
| VoiceClient.VoiceCraftClient.Update | VoiceCraft.Client/VoiceCraft.Client/Network/VoiceCraftClient.cs:127-156 | the speaking flag and its events are those of the speaking switch |
| VoiceClient.VoiceCraftClient.Read | VoiceCraft.Client/VoiceCraft.Client/Network/VoiceCraftClient.cs:158-164 | reads count/2 samples through the audio system's mix and reports count/2*2 bytes |
| VoiceClient.VoiceCraftClient.Write | VoiceCraft.Client/VoiceCraft.Client/Network/VoiceCraftClient.cs:166-181 | a read past the buffer throws before anything changes; otherwise a loud enough frame records the time, the timestamp advances by one with wrap-around, and the frame is sent only when sending is allowed |
| VoiceClient.VoiceCraftClient.Disconnect | VoiceCraft.Client/VoiceCraft.Client/Network/VoiceCraftClient.cs:183-187 | does nothing when disposed or already disconnected; otherwise the server peer is disconnected |
| VoiceClient.VoiceCraftClient.SendPacket | VoiceCraft.Client/VoiceCraft.Client/Network/VoiceCraftClient.cs:189-202 | sends exactly when connected |
| VoiceClient.VoiceCraftClient.Dispose | VoiceCraft.Client/VoiceCraft.Client/Network/VoiceCraftClient.cs:226-246 | the first call clears the world and marks the client disposed; later calls change nothing |
| VoiceClient.VoiceCraftClient.OnConnectedEvent | VoiceCraft.Client/VoiceCraft.Client/Network/VoiceCraftClient.cs:255-259 | Connected is raised only for the server peer |
| VoiceClient.VoiceCraftClient.OnDisconnectedEvent | VoiceCraft.Client/VoiceCraft.Client/Network/VoiceCraftClient.cs:261-286 | another peer's disconnect changes nothing; the server peer's clears and destroys the world's entities, resets the id, and reports the Logout packet's reason when one decodes, else the library's |
| VoiceClient.VoiceCraftClient.HandleSetId | VoiceCraft.Client/VoiceCraft.Client/Network/VoiceCraftClient.cs:435-438 | the client's id becomes the packet's |
| VoiceClient.VoiceCraftClient.HandleSetEffect | VoiceCraft.Client/VoiceCraft.Client/Network/VoiceCraftClient.cs:440-470 | the entry is updated in place, replaced with OnEffectSet, or set to null, as the packet's type and the stored effect decide |
| VoiceClient.VoiceCraftClient.HandleAudio | VoiceCraft.Client/VoiceCraft.Client/Network/VoiceCraftClient.cs:472-477 | dropped while deafened or for an unknown id; otherwise that entity receives the frame |
| VoiceClient.VoiceCraftClient.HandleSetTitle | VoiceCraft.Client/VoiceCraft.Client/Network/VoiceCraftClient.cs:479-482 | the title event is raised with the value |
| VoiceClient.VoiceCraftClient.HandleSetDescription | VoiceCraft.Client/VoiceCraft.Client/Network/VoiceCraftClient.cs:484-487 | the description event is raised with the value |
| VoiceClient.VoiceCraftClient.HandleEntityCreated | VoiceCraft.Client/VoiceCraft.Client/Network/VoiceCraftClient.cs:489-498 | an over-long name throws; otherwise a client entity with the packet's fields is added, and a taken id throws |
| VoiceClient.VoiceCraftClient.HandleNetworkEntityCreated | VoiceCraft.Client/VoiceCraft.Client/Network/VoiceCraftClient.cs:500-517 | the client's own id updates the client's own entity; any other id adds a client network entity as HandleEntityCreated does |
| VoiceClient.VoiceCraftClient.HandleEntityDestroyed | VoiceCraft.Client/VoiceCraft.Client/Network/VoiceCraftClient.cs:519-522 | an unknown id throws; a known one is removed and destroyed |
| VoiceClient.VoiceCraftClient.HandleSetVisibility | VoiceCraft.Client/VoiceCraft.Client/Network/VoiceCraftClient.cs:524-531 | only a client entity is updated; hiding it also clears its buffers |
| VoiceClient.VoiceCraftClient.HandleSetName | VoiceCraft.Client/VoiceCraft.Client/Network/VoiceCraftClient.cs:533-544 | the own id renames the client, another known id renames that entity, and an unknown id does nothing |
| VoiceClient.VoiceCraftClient.HandleSetMute | VoiceCraft.Client/VoiceCraft.Client/Network/VoiceCraftClient.cs:546-551 | only the world's entity is muted; there is no own-id routing |
| VoiceClient.VoiceCraftClient.HandleSetDeafen | VoiceCraft.Client/VoiceCraft.Client/Network/VoiceCraftClient.cs:553-558 | only the world's entity is deafened; there is no own-id routing |
| VoiceClient.VoiceCraftClient.HandleSetTalkBitmask | VoiceCraft.Client/VoiceCraft.Client/Network/VoiceCraftClient.cs:560-571 | the routed entity's talk mask is set through its setter |
| VoiceClient.VoiceCraftClient.HandleSetListenBitmask | VoiceCraft.Client/VoiceCraft.Client/Network/VoiceCraftClient.cs:573-584 | the routed entity's listen mask is set to the widened 32-bit value |
| VoiceClient.VoiceCraftClient.HandleSetPosition | VoiceCraft.Client/VoiceCraft.Client/Network/VoiceCraftClient.cs:599-610 | the routed entity's position is set |
| VoiceClient.VoiceCraftClient.HandleSetRotation | VoiceCraft.Client/VoiceCraft.Client/Network/VoiceCraftClient.cs:612-623 | the routed entity's rotation is set |
| Packets.TagByte | VoiceCraft.Core/Enums.cs:19-42 | a packet class has a tag byte exactly when PacketType declares its member, and the byte reads back as that member |
| Packets.PacketTags | VoiceCraft.Core/Enums.cs:19-42 | the tag bytes of the five declared packet classes, and the four classes whose member PacketType lacks |
| Packets.EntityCreatedRoundTrip | VoiceCraft.Core/Network/Packets/EntityCreatedPacket.cs:22-36 | decoding restores every field, the name cut to the bound, and restores the packet exactly when the name fits |
| Packets.NetworkEntityCreatedRoundTrip | VoiceCraft.Core/Network/Packets/NetworkEntityCreatedPacket.cs:19-29 | all five fields survive, the name within the bound |
| Packets.NetworkEntityCreatedGuidLast | VoiceCraft.Core/Network/Packets/NetworkEntityCreatedPacket.cs:19-23 | the guid comes after the base fields here, the reverse of the entity's own encoding |
| Packets.SetIdRoundTrip | VoiceCraft.Core/Network/Packets/SetIdPacket.cs:16-24 | every int, negatives included, survives in four bytes |
| Packets.SetTalkBitmaskRoundTrip | VoiceCraft.Core/Network/Packets/SetTalkBitmaskPacket.cs:18-28 | the id and the full 64-bit mask survive in 12 bytes |
| Packets.SetListenBitmaskRoundTrip | VoiceCraft.Core/Network/Packets/SetListenBitmaskPacket.cs:18-28 | the id and the 32-bit mask survive in 8 bytes |
| Packets.SetEffectBitmaskRoundTrip | VoiceCraft.Core/Network/Packets/SetEffectBitmaskPacket.cs:18-28 | the id and the 32-bit mask survive in 8 bytes |
| Packets.SetRotationRoundTrip | VoiceCraft.Core/Network/Packets/SetRotationPacket.cs:19-36 | the four components come back in place in 20 bytes |
| Packets.LogoutRoundTrip | VoiceCraft.Core/Network/Packets/LogoutPacket.cs:16-24 | the reason survives, cut to the bound, and exactly when it fits |
| Packets.EffectTypeOfOptional | VoiceCraft.Core/Network/Packets/SetEffectPacket.cs:12 | a missing effect is typed Unknown, and a present one by its own EffectType |
| Packets.NewSetEffectPacket | VoiceCraft.Core/Network/Packets/SetEffectPacket.cs:9-14 | the packet holds the index and the effect, typed Unknown or Proximity accordingly |
| Packets.SerializeSetEffect | VoiceCraft.Core/Network/Packets/SetEffectPacket.cs:22-27 | writing fails exactly when the effect is null (Put(null) throws) |
| Packets.SetEffectTypeNormalised | VoiceCraft.Core/Network/Packets/SetEffectPacket.cs:29-34 | decoding makes the type a declared member, and Unknown for any other byte |
| Packets.SetEffectRoundTrip | VoiceCraft.Core/Network/Packets/SetEffectPacket.cs:22-34 | the index and type survive, and the effect's payload is left for the caller |
| McApiPackets.McApiSetTalkBitmaskRoundTrip | VoiceCraft.Core/Network/McApiPackets/McApiSetTalkBitmaskPacket.cs:20-32 | the token (within the bound), the id and the 64-bit mask survive |
| McApiPackets.McApiSetListenBitmaskRoundTrip | VoiceCraft.Core/Network/McApiPackets/McApiSetListenBitmaskPacket.cs:20-32 | the token (within the bound), the id and the 32-bit mask survive |
| McApiPackets.McApiSetRotationRoundTrip | VoiceCraft.Core/Network/McApiPackets/McApiSetRotationPacket.cs:21-36 | the token, the id and the four components survive, each in place |
| McApiPackets.McApiEntityHeadRoundTrip | VoiceCraft.Core/Network/McApiPackets/McApiEntityCreatedPacket.cs:52-78 | the head fields survive, with the strings cut to the bound and LastSpoke through the clock's conversions |
| McApiPackets.McApiEntityTailRoundTrip | VoiceCraft.Core/Network/McApiPackets/McApiEntityCreatedPacket.cs:60-85 | the flags, masks, position and rotation survive exactly |
| McApiPackets.McApiEntityCreatedRoundTrip | VoiceCraft.Core/Network/McApiPackets/McApiEntityCreatedPacket.cs:52-85 | every field but LastSpoke survives, the strings cut to the bound |
| McApiPackets.McApiEntityCreatedLastSpokeMismatch | VoiceCraft.Core/Network/McApiPackets/McApiEntityCreatedPacket.cs:56-75 | LastSpoke is written as Unix milliseconds but read as an OLE date, so the Unix epoch does not come back |
| Enums.PacketTypeNumbering | VoiceCraft.Core/Enums.cs:19-42 | PacketType numbers its 17 members 0 to 16 in declaration order |
| Enums.McApiPacketTypeNumbering | VoiceCraft.Core/Enums.cs:44-71 | McApiPacketType numbers its 19 members 0 to 18 in declaration order |
| Enums.EffectTypeNumbering | VoiceCraft.Core/Enums.cs:97-101 | EffectType numbers its two members 0 and 1 |
| Enums.PositioningTypeNumbering | VoiceCraft.Core/Enums.cs:5-10 | PositioningType numbers its members in declaration order |
| Enums.EntityTypeNumbering | VoiceCraft.Core/Enums.cs:12-17 | EntityType numbers its members in declaration order |
| Enums.PropertyKeyNumbering | VoiceCraft.Core/Enums.cs:77-82 | PropertyKey numbers its members in declaration order |
| Enums.PropertyTypeNumbering | VoiceCraft.Core/Enums.cs:84-91 | PropertyType numbers its members in declaration order |
| Enums.AudioFormatNumbering | VoiceCraft.Core/Enums.cs:103-108 | AudioFormat numbers its members in declaration order |
| Enums.CaptureStateNumbering | VoiceCraft.Core/Enums.cs:110-116 | CaptureState numbers its members in declaration order |
| Enums.PlaybackStateNumbering | VoiceCraft.Core/Enums.cs:118-125 | PlaybackState numbers its members in declaration order |
| Enums.BackgroundProcessStatusNumbering | VoiceCraft.Core/Enums.cs:131-137 | BackgroundProcessStatus numbers its members in declaration order |
| Enums.TagRoundTrips | VoiceCraft.Core/Enums.cs:19-42 | a tag byte read back names the member it was written from, for all three tag enumerations |
| Enums.PacketTypeOf | VoiceCraft.Core/Enums.cs:19-42 | a byte names a member exactly when it is below the member count, and then the member with that value |
| Enums.McApiPacketTypeOf | VoiceCraft.Core/Enums.cs:44-71 | the same for the bridge protocol's tags |
| Enums.EffectTypeOf | VoiceCraft.Core/Enums.cs:97-101 | the same for effect types |
| Enums.PacketTypeName | VoiceCraft.Core/Enums.cs:19-42 | no PacketType member is named Logout, SetId, NetworkEntityCreated or SetEffectBitmask |
| Enums.EffectTypeName | VoiceCraft.Core/Enums.cs:97-101 | EffectType has no Visibility or Directional member |
| Extensions.Truncate | VoiceCraft.Core/Extensions.cs:5-10 | a negative bound throws; a value that fits is kept; a longer one becomes its first maxLength characters and the suffix |
| Extensions.TruncateIdempotent | VoiceCraft.Core/Extensions.cs:5-10 | truncating twice with the same bound and suffix is truncating once |
| Extensions.Sample16 | VoiceCraft.Core/Extensions.cs:18-19 | two little-endian bytes give the signed 16-bit sample they encode |
| Extensions.PeakAbs | VoiceCraft.Core/Extensions.cs:14-27 | the largest absolute sample among the rounds read, at most 32768 |
| Extensions.GetFramePeak16 | VoiceCraft.Core/Extensions.cs:12-28 | the peak absolute sample over 32768, in [0, 1]; an index past the buffer throws |
| Codecs.CompressionFactor | VoiceCraft.Client/VoiceCraft.Client/Audio/SimplePcmCodec.cs:62-68 | the factor lies between 1 and 8 |
| Codecs.DefaultCompressionFactor | VoiceCraft.Client/VoiceCraft.Client/Audio/SimplePcmCodec.cs:22 | the default bit rate gives factor 4 |
| Codecs.CompressionFactorEnds | VoiceCraft.Client/VoiceCraft.Client/Audio/SimplePcmCodec.cs:66-67 | up to 16 kbit/s the factor is 8; from 128 kbit/s on it is 1 |
| Codecs.CompressionFactorAntitone | VoiceCraft.Client/VoiceCraft.Client/Audio/SimplePcmCodec.cs:62-68 | a higher bit rate never compresses more |
| Codecs.BytesToProcess | VoiceCraft.Client/VoiceCraft.Client/Audio/SimplePcmCodec.cs:45 | never more than the input, and the smaller of input and frame bytes when the product does not overflow |
| Codecs.PcmEncodedLength | VoiceCraft.Client/VoiceCraft.Client/Audio/SimplePcmCodec.cs:46 | the encoded length never exceeds maxLength |
| Codecs.PcmEncodedLengthFits | VoiceCraft.Client/VoiceCraft.Client/Audio/SimplePcmCodec.cs:45-46 | it is the largest count within maxLength whose strided reads stay inside the input |
| Codecs.Downsample | VoiceCraft.Client/VoiceCraft.Client/Audio/SimplePcmCodec.cs:49-57 | output byte j is input byte j*factor, where both exist; the loop completes exactly when no position is left unwritten |
| Codecs.SimplePcmCodec.constructor | VoiceCraft.Client/VoiceCraft.Client/Audio/SimplePcmCodec.cs:17-23 | stores rate and channels, with no packet loss and the default bit rate |
| Codecs.SimplePcmCodec.SetPacketLostPercent | VoiceCraft.Client/VoiceCraft.Client/Audio/SimplePcmCodec.cs:25-28 | the percentage is clamped to [0, 100] |
| Codecs.SimplePcmCodec.SetBitRate | VoiceCraft.Client/VoiceCraft.Client/Audio/SimplePcmCodec.cs:30-33 | the bit rate is stored |
| Codecs.SimplePcmCodec.Encode | VoiceCraft.Client/VoiceCraft.Client/Audio/SimplePcmCodec.cs:35-60 | a disposed codec throws; a null buffer gives 0; otherwise the strided copy of the encoded length is written and that length returned |
| Codecs.SimplePcmCodec.Dispose | VoiceCraft.Client/VoiceCraft.Client/Audio/SimplePcmCodec.cs:70-77 | the codec is disposed |
| Codecs.CompressionRatio | VoiceCraft.Client/VoiceCraft.Client.iOS/Audio/iOSAudioCodec.cs:61-71 | the ratio is 1, 2, 4 or 8: 1 exactly from 64 kbit/s and 8 exactly below 16 kbit/s |
| Codecs.DefaultCompressionRatio | VoiceCraft.Client/VoiceCraft.Client.iOS/Audio/iOSAudioCodec.cs:21 | the default bit rate gives ratio 2 |
| Codecs.CompressionRatioAntitone | VoiceCraft.Client/VoiceCraft.Client.iOS/Audio/iOSAudioCodec.cs:61-71 | a higher bit rate never compresses more |
| Codecs.IosEncodedLength | VoiceCraft.Client/VoiceCraft.Client.iOS/Audio/iOSAudioCodec.cs:47 | the copied length never exceeds maxLength |
| Codecs.IosEncodedLengthFits | VoiceCraft.Client/VoiceCraft.Client.iOS/Audio/iOSAudioCodec.cs:47 | it is the largest count within maxLength whose strided reads stay inside the input |
| Codecs.IosAudioCodec.constructor | VoiceCraft.Client/VoiceCraft.Client.iOS/Audio/iOSAudioCodec.cs:16-22 | no packet loss, the default bit rate, not disposed |
| Codecs.IosAudioCodec.SetPacketLostPercent | VoiceCraft.Client/VoiceCraft.Client.iOS/Audio/iOSAudioCodec.cs:24-27 | the percentage is clamped to [0, 100] |
| Codecs.IosAudioCodec.SetBitRate | VoiceCraft.Client/VoiceCraft.Client.iOS/Audio/iOSAudioCodec.cs:29-32 | the bit rate is stored |
| Codecs.IosAudioCodec.Encode | VoiceCraft.Client/VoiceCraft.Client.iOS/Audio/iOSAudioCodec.cs:34-59 | a disposed codec throws; a null buffer gives 0; otherwise the strided copy is written and its length returned |
| Codecs.IosAudioCodec.Dispose | VoiceCraft.Client/VoiceCraft.Client.iOS/Audio/iOSAudioCodec.cs:73-80 | the codec is disposed |
| HotKeys.SplitCombo | VoiceCraft.Client/VoiceCraft.Client.Linux/NativeHotKeyService.cs:30-34 | splitting a combo at "\0" gives back the cleaned key names in press order |
| HotKeys.ComboDeterminesOrder | VoiceCraft.Client/VoiceCraft.Client.Linux/NativeHotKeyService.cs:30-34 | two key lists with the same combo have the same cleaned names in the same order |
| HotKeys.RemoveKey | VoiceCraft.Client/VoiceCraft.Client.Linux/NativeHotKeyService.cs:52 | removing a held key drops one occurrence, keeping the rest; an absent key changes nothing |
| HotKeys.DistinctRemove | VoiceCraft.Client/VoiceCraft.Client.Linux/NativeHotKeyService.cs:44-52 | a removal keeps the held keys distinct and leaves the key no longer held |
| HotKeys.PressThenRelease | VoiceCraft.Client/VoiceCraft.Client.Linux/NativeHotKeyService.cs:26-52 | pressing a key that is not held and then releasing it restores the held list |
| HotKeys.MuteCombo | VoiceCraft.Client/VoiceCraft.Client/Services/HotKeyService.cs:32 | Ctrl+Shift+M builds the mute action's registered combo |
| HotKeys.NativeHotKeyService.constructor | VoiceCraft.Client/VoiceCraft.Client.Linux/NativeHotKeyService.cs:16-22 | no key is held at the start |
| HotKeys.NativeHotKeyService.BuildCombo | VoiceCraft.Client/VoiceCraft.Client.Linux/NativeHotKeyService.cs:30-34 | the builder loop yields the combo of the held keys |
| HotKeys.NativeHotKeyService.OnKeyPressed | VoiceCraft.Client/VoiceCraft.Client.Linux/NativeHotKeyService.cs:24-40 | a key already held changes nothing; a new key is appended, and the action registered for the new combo, if any, is pressed |
| HotKeys.NativeHotKeyService.OnKeyReleased | VoiceCraft.Client/VoiceCraft.Client.Linux/NativeHotKeyService.cs:42-58 | the action for the combo while the key was still held is released, and the key is no longer held |

## Left out

- Floating-point arithmetic is opaque: distances, loudness, volume, OLE dates and the AudioSystem's float stage. The float stage is the `shape` parameter of the mix; the stage's `_effectBuffer`, and the NullReferenceException ProcessEffects hits on a null table entry, are not modelled.
- EventHandlers.EventHandlerSystem.Update: the source runs its tasks with Parallel.ForEach, so they may interleave, and tasks after one that throws may still run, in any order, before the exceptions surface together. The model runs the tasks one after another in queue order, stops at the first task that throws, and reports the exception as its `threw` result. Either way the throw skips the clearing of the queue.
- EventHandlers.EventHandlerSystem.RunAll: stops at the first task that throws, for the reason given for Update.
- Sockets, threads, locks, timers and the LiteNetLib and websocket libraries are not modelled. A peer is a small class holding its id, state, tag and last disconnect reason.
- The LiteNetLib NetDataWriter/NetDataReader pair is modelled as a little-endian byte codec with bounded strings. The Z85 and JSON layers of the bridge are not modelled: inbound texts reach the model through a `decode` parameter.
- Constants.cs is not part of this model. The string bound (MaxStringLength), the silence threshold and the jitter delay are parameters or named constants.
- LoginPacket.cs, InfoPacket.cs and ServerInfo are not part of this model. A login is a datatype with the fields the server reads.
- McApiNetPeer.cs is not part of this model. The peer's fields used by McWssServer are a class in the McWss module.
- VoiceCraftServer Start, Stop, Update, Reset, Dispose, the ProcessPacket dispatch, HandleInfoPacket and the unconnected sends are not modelled. They are socket and thread glue around the handlers that are modelled.
- McWssServer Start, Stop, the Update loop over all peers, and the JSON parsing in OnMessageReceived are not modelled. UpdatePeer models one peer's turn.
- An unset Config.LoginToken (null) is modelled as the empty string.
- KeyCode values are identified by their enum names.
- NativeHotKeyService.Dispose and the global keyboard hook are not modelled.
- Dispose handler-nulling, finalizers and AudioEffectSystem.Dispose (VoiceCraft.Server/Systems/AudioEffectSystem.cs:11-17) are not modelled; ClearEffects and Reset are.
- The client's ping, its HandleInfoPacket, and the rejection in OnConnectionRequestEvent are not modelled.
- HandleSetEffectBitmaskPacket is not modelled, because the client entity has no EffectBitmask property to set. The packet's codec is modelled.
- The Visibility and Directional cases of HandleSetEffectPacket are not modelled: EffectType has no such members, so those branches cannot be reached.
- The Opus encoder's output is the `encoded` parameter of Write. DateTime.UtcNow is the `now` parameter throughout.
- The client's DisconnectAll is modelled as disconnecting the server peer with an empty reason.
- The client Update's ConnectionState switch, which does nothing, and PollEvents are not modelled.
- The client constructs `new VoiceCraftClientNetworkEntity(id, world, userGuid)` at VoiceCraftClient.cs:508, but that class has no such constructor. The model builds a client network entity and sets its user guid.
- The Core network entity's `Rotation = Vector2.Zero` is modelled as the zero quaternion that the other classes use.
- Exception messages are identified by their Locales keys.
- Packet constructors with default arguments are not separate members, except where a constructor does more than store its arguments (NewSetEffectPacket).
- The EffectBitmask an entity exposes to the effects is the `effectBitmask` parameter of the visibility pass. The proximity distance check is the `withinRange` parameter.
- Entities.Entity.Loudness: the float loudness is an opaque value; only the choice between the last frame's loudness and zero is stated.
- Entities.Entity.SetWorldId: the bound is checked against the number of Unicode scalar values in the string. C# `string.Length` counts UTF-16 code units, so a character outside the Basic Multilingual Plane counts once here and twice in the source.
- Entities.Entity.SetName: the bound is counted in Unicode scalar values, not UTF-16 code units, as for SetWorldId.
- Extensions.Truncate: lengths and the cut are in Unicode scalar values. The source cuts at a UTF-16 code unit, so it can split a surrogate pair, which a Dafny string cannot hold.
- McWss.InboundTextStripsPrefix: the prefix test is an exact, ordinal prefix comparison. The source's `string.StartsWith(string)` at VoiceCraft.Server/Servers/McWssServer.cs:177 compares with the current culture, which can also match some texts that differ in ignorable characters.
- McWss.McWssServer.HandleEventPacket: uses the same ordinal prefix test as InboundTextStripsPrefix.
- Entities.Entity.Read: the decoder's concealment frame is the `concealed` parameter. Only as much of the frame as fits in the buffer is written, and a decoder exception is not modelled.
- VoiceCraftNetworkEntity names two classes, one in VoiceCraft.Core and one in VoiceCraft.Server/Data. Every server file is read as meaning the server's class, the one VoiceCraftServer.cs:248 constructs. This includes VisibilitySystem.cs, whose usings name only VoiceCraft.Core. ServerNet.IsNetwork therefore tests for the server's class, and so do Broadcast and the visibility pass.
- VoiceClient.VoiceCraftClient.HandleSetEffect: the source looks up and stores the effect under `packet.Bitmask`, which SetEffectPacket does not declare (VoiceCraft.Client/VoiceCraft.Client/Network/VoiceCraftClient.cs:442-467). The model uses the packet's Index, the only slot number the packet carries.
